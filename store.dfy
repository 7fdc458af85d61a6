/**
 * The rows the handlers read from the SQLite database, as maps keyed by the
 * value each query filters on.
 */
module Store {
  import opened Oracle

  /** A column value as sqlite3 hands it to Python: NULL, an integer, a real or a text. */
  datatype SqlValue = SqlNull | SqlInteger(i: int) | SqlReal(literal: string) | SqlText(s: string)

  /** The columns of the customer lookup by e-mail (a LEFT JOIN, so the plan name may be NULL). */
  datatype Customer = Customer(
    customerId: string,
    name: string,
    accountStatus: string,
    servicePlanId: string,
    planName: Option<string>)

  /**
   * The twelve columns of the billing join: name, email, service_plan_id,
   * data_used_gb, voice_minutes_used, sms_count_used, additional_charges,
   * total_bill_amount, monthly_cost, data_limit_gb, voice_minutes, sms_count.
   */
  type BillingRow = r: seq<SqlValue> | |r| == 12
    witness [SqlNull, SqlNull, SqlNull, SqlNull, SqlNull, SqlNull, SqlNull, SqlNull, SqlNull, SqlNull, SqlNull, SqlNull]

  /** The `billing_dict` built from a billing row, one named field per column. */
  datatype BillingDict = BillingDict(
    name: SqlValue,
    email: SqlValue,
    servicePlanId: SqlValue,
    dataUsedGb: SqlValue,
    voiceMinutesUsed: SqlValue,
    smsCountUsed: SqlValue,
    additionalCharges: SqlValue,
    totalBillAmount: SqlValue,
    monthlyCost: SqlValue,
    dataLimitGb: SqlValue,
    voiceMinutes: SqlValue,
    smsCount: SqlValue)

  /**
   * What each query returns with `fetchone()`: the customer row for an e-mail,
   * the most recent billing row for a customer id, the `str()` of the most recent
   * usage row for a customer id, and the `str()` of the list of all plans.
   */
  datatype Tables = Tables(
    customersByEmail: map<string, Customer>,
    billingRows: map<string, BillingRow>,
    usageRows: map<string, string>,
    plansListing: string)

  function CustomerByEmail(t: Tables, email: string): Option<Customer> {
    if email in t.customersByEmail then Some(t.customersByEmail[email]) else None
  }

  function BillingDetails(t: Tables, customerId: string): Option<BillingRow> {
    if customerId in t.billingRows then Some(t.billingRows[customerId]) else None
  }
}
