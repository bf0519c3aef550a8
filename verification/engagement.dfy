/**
 * `EngagementService`: reminders as the backend sends them and as the
 * console shows them, the two mappings between those shapes, and the list
 * operations that map every record they receive.
 */
module Engagement {
  import opened Wrappers
  import Seqs

  datatype ReminderCategory = Health | Motor

  datatype ReminderStatus = Sent | Responded

  /** The console's reminder; `id` and `riskScore` are optional, `category` may be `null`. */
  datatype Reminder = Reminder(
    id: Option<int>, custId: int, policyId: int, category: Option<ReminderCategory>,
    dateSent: string, trigger: string, status: ReminderStatus, riskScore: Option<int>)

  /** The backend's reminder; `null` fields are `None`. */
  datatype BackendReminder = BackendReminder(
    reminderId: int, customerId: int, policyId: int, message: string, sentDate: string,
    status: ReminderStatus, category: Option<ReminderCategory>, riskScore: Option<int>,
    createdAt: Option<string>, modifiedAt: Option<string>)

  /** The fields the backend takes to create a reminder. */
  datatype BackendReminderCreate = BackendReminderCreate(
    customerId: int, policyId: int, message: string, sentDate: string, status: ReminderStatus)

  /** The create-fields a backend record carries. */
  function CreateFields(b: BackendReminder): BackendReminderCreate {
    BackendReminderCreate(b.customerId, b.policyId, b.message, b.sentDate, b.status)
  }

  /**
   * `fromBackend`: renames the fields to the console's names, keeps category
   * and status, turns a `null` risk score into an absent one and drops the
   * audit timestamps.
   */
  function FromBackend(b: BackendReminder): (r: Reminder)
    ensures r.id == Some(b.reminderId)
    ensures r.category == b.category && r.status == b.status
    ensures r.custId == b.customerId && r.policyId == b.policyId
    ensures r.dateSent == b.sentDate && r.trigger == b.message
    ensures r.riskScore == b.riskScore
    ensures b.riskScore.None? <==> r.riskScore.None?
  {
    Reminder(Some(b.reminderId), b.customerId, b.policyId, b.category, b.sentDate, b.message, b.status,
             if b.riskScore.Some? then b.riskScore else None)
  }

  /** `toBackend`: the create-fields of a console reminder; id, category and risk score are not sent. */
  function ToBackend(r: Reminder): (b: BackendReminderCreate)
    ensures b.customerId == r.custId && b.policyId == r.policyId
    ensures b.sentDate == r.dateSent && b.message == r.trigger
    ensures b.status == r.status
  {
    BackendReminderCreate(r.custId, r.policyId, r.trigger, r.dateSent, r.status)
  }

  /** Mapping a backend record to the console and back gives its create-fields. */
  lemma ToBackendAfterFromBackend(b: BackendReminder)
    ensures ToBackend(FromBackend(b)) == CreateFields(b)
  {
  }

  /**
   * A backend record created from `r` maps back to a reminder that agrees
   * with `r` on every field `toBackend` sent.
   */
  lemma FromBackendAfterToBackend(r: Reminder, b: BackendReminder)
    requires CreateFields(b) == ToBackend(r)
    ensures var back := FromBackend(b);
      && back.custId == r.custId && back.policyId == r.policyId && back.trigger == r.trigger
      && back.dateSent == r.dateSent && back.status == r.status
    ensures ToBackend(FromBackend(b)) == ToBackend(r)
  {
  }

  /**
   * The mapping shared by `listReminders`, `listRemindersByCustomer` and
   * `bulkCreate`: one console reminder per backend record, in order.
   */
  function FromBackendAll(items: seq<BackendReminder>): (r: seq<Reminder>)
    ensures |r| == |items|
    ensures forall i :: 0 <= i < |items| ==> r[i] == FromBackend(items[i])
  {
    Seqs.Map(FromBackend, items)
  }

  /** The mapping commutes with concatenation, so a split response maps piecewise. */
  lemma FromBackendAllAppend(a: seq<BackendReminder>, b: seq<BackendReminder>)
    ensures FromBackendAll(a + b) == FromBackendAll(a) + FromBackendAll(b)
  {
    Seqs.MapAppend(FromBackend, a, b);
  }
}
