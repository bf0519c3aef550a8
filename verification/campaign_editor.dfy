/**
 * The campaign editor page: a create/edit form over the `Campaigns` store,
 * which row is being edited, which row has its details expanded, and the
 * count of active campaigns. The page's copy of the list is the store's
 * list, since the page re-reads it on every change. Form validity is an
 * input; `toIso` and `toInputDate` stand for the date conversions.
 */
module CampaignEditor {
  import opened Wrappers
  import opened Campaigns
  import Text

  /** The form controls. */
  datatype EditorForm = EditorForm(
    name: string, offerDetails: string, targetSegment: string,
    startDate: string, endDate: string, status: Status)

  datatype Editor = Editor(editingIndex: Option<nat>, expandedIndex: Option<nat>, form: EditorForm, activeCampaigns: nat)

  /** The store and the page over it. */
  datatype Page = Page(store: seq<Campaign>, editor: Editor)

  /** What `resetForm` restores, which is also the form the page starts with. */
  const DefaultForm: EditorForm := EditorForm("", DefaultDiscount, Segments[0], "", "", Active)

  /** The page's rules: the edited row exists and the active count matches the list. */
  predicate Valid(p: Page) {
    && (p.editor.editingIndex.Some? ==> p.editor.editingIndex.value < |p.store|)
    && p.editor.activeCampaigns == ActiveCount(p.store)
  }

  /**
   * The list subscription: the new rows set the active count, and an
   * expanded row at or beyond the new length is closed.
   */
  function OnRows(e: Editor, rows: seq<Campaign>): (r: Editor)
    ensures r.activeCampaigns == ActiveCount(rows)
    ensures r.expandedIndex.Some? ==> r.expandedIndex.value < |rows|
    ensures e.expandedIndex.Some? && e.expandedIndex.value < |rows| ==> r.expandedIndex == e.expandedIndex
    ensures r.editingIndex == e.editingIndex && r.form == e.form
  {
    var expanded := if e.expandedIndex.Some? && e.expandedIndex.value >= |rows| then None else e.expandedIndex;
    e.(activeCampaigns := ActiveCount(rows), expandedIndex := expanded)
  }

  /** The page as constructed over a store. */
  function Init(store: seq<Campaign>): (p: Page)
    ensures Valid(p) && p.editor.editingIndex.None? && p.editor.expandedIndex.None?
  {
    Page(store, OnRows(Editor(None, None, DefaultForm, 0), store))
  }

  /**
   * Applies a new list: the store changes and the subscription runs. The
   * page stays valid as long as the row being edited, if any, still exists.
   */
  function Publish(p: Page, rows: seq<Campaign>): (r: Page)
    ensures r.store == rows
    ensures r.editor.editingIndex == p.editor.editingIndex && r.editor.form == p.editor.form
    ensures p.editor.editingIndex.None? || p.editor.editingIndex.value < |rows| ==> Valid(r)
  {
    Page(rows, OnRows(p.editor, rows))
  }

  predicate IsEditing(e: Editor) {
    e.editingIndex.Some?
  }

  /** `resetForm`: ends editing and restores the default form. */
  function ResetForm(e: Editor): (r: Editor)
    ensures !IsEditing(r) && r.form == DefaultForm
    ensures r.expandedIndex == e.expandedIndex && r.activeCampaigns == e.activeCampaigns
  {
    e.(editingIndex := None, form := DefaultForm)
  }

  /** `cancelEdit`. */
  function CancelEdit(p: Page): (r: Page)
    ensures !IsEditing(r.editor) && r.store == p.store
    ensures Valid(p) ==> Valid(r)
  {
    p.(editor := ResetForm(p.editor))
  }

  /** The form value the store's `createFromForm` receives from this form. */
  function ToFormValue(f: EditorForm): FormValue {
    FormValue(f.name, f.targetSegment, Some(f.offerDetails), None, f.startDate, f.endDate)
  }

  /** `saveDraft`: nothing while editing or with an invalid form; otherwise a new draft and a reset form. */
  function SaveDraft(p: Page, formValid: bool, now: string, toIso: string -> string): (r: Page)
    ensures !formValid || IsEditing(p.editor) ==> r == p
    ensures formValid && !IsEditing(p.editor) ==>
      r.store == CreateDraft(p.store, ToFormValue(p.editor.form), now, toIso) && !IsEditing(r.editor)
    ensures Valid(p) ==> Valid(r)
  {
    if !formValid || IsEditing(p.editor) then p
    else
      var q := Publish(p, CreateDraft(p.store, ToFormValue(p.editor.form), now, toIso));
      q.(editor := ResetForm(q.editor))
  }

  /** `launchCampaign`: as `saveDraft`, but the new campaign is active. */
  function LaunchCampaign(p: Page, formValid: bool, now: string, toIso: string -> string): (r: Page)
    ensures !formValid || IsEditing(p.editor) ==> r == p
    ensures formValid && !IsEditing(p.editor) ==>
      r.store == Launch(p.store, ToFormValue(p.editor.form), now, toIso) && !IsEditing(r.editor)
    ensures formValid && !IsEditing(p.editor) && Valid(p) ==> r.editor.activeCampaigns == p.editor.activeCampaigns + 1
    ensures Valid(p) ==> Valid(r)
  {
    if !formValid || IsEditing(p.editor) then p
    else
      ActiveCountAfterCreate(p.store, ToFormValue(p.editor.form), now, toIso);
      var q := Publish(p, Launch(p.store, ToFormValue(p.editor.form), now, toIso));
      q.(editor := ResetForm(q.editor))
  }

  /** `editCampaign(index)` on a row of the table: the form takes the row's values, with the defaults for empty ones. */
  function EditCampaign(p: Page, index: nat, toInputDate: string -> string): (r: Page)
    requires index < |p.store|
    ensures r.editor.editingIndex == Some(index) && r.store == p.store
    ensures r.editor.form.status == p.store[index].status
    ensures r.editor.form.offerDetails == if p.store[index].discount == "" then DefaultDiscount else p.store[index].discount
    ensures Valid(p) ==> Valid(r)
  {
    var c := p.store[index];
    var form := EditorForm(
      c.name,
      if c.discount != "" then c.discount else DefaultDiscount,
      if c.target != "" then c.target else Segments[0],
      if c.startDate.Some? && c.startDate.value != "" then toInputDate(c.startDate.value) else "",
      if c.endDate.Some? && c.endDate.value != "" then toInputDate(c.endDate.value) else "",
      c.status);
    p.(editor := p.editor.(editingIndex := Some(index), form := form))
  }

  /** `detailsbutton(i)`: closes row `i` if it is the expanded one, otherwise expands it. */
  function DetailsButton(e: Editor, i: nat): (r: Editor)
    ensures r.expandedIndex == (if e.expandedIndex == Some(i) then None else Some(i))
    ensures r.editingIndex == e.editingIndex && r.form == e.form && r.activeCampaigns == e.activeCampaigns
  {
    e.(expandedIndex := if e.expandedIndex == Some(i) then None else Some(i))
  }

  /**
   * Pressing the same details button twice restores the expansion state when
   * no row or that row was expanded; when another row was expanded, the two
   * presses leave every row closed.
   */
  lemma DetailsButtonTwice(e: Editor, i: nat)
    ensures e.expandedIndex.None? || e.expandedIndex == Some(i) ==> DetailsButton(DetailsButton(e, i), i) == e
    ensures e.expandedIndex.Some? && e.expandedIndex != Some(i) ==>
      DetailsButton(DetailsButton(e, i), i) == e.(expandedIndex := None)
  {
  }

  /** The changes `saveUpdate` sends: every editable field, dates cleared when left blank. */
  function FormChanges(f: EditorForm, toIso: string -> string): Changes {
    Changes(
      Some(f.name), Some(f.targetSegment), Some(f.offerDetails),
      Some(if f.startDate != "" then Some(toIso(f.startDate)) else None),
      Some(if f.endDate != "" then Some(toIso(f.endDate)) else None),
      Some(f.status))
  }

  /**
   * `saveUpdate`: nothing unless editing with a valid form; otherwise the
   * campaigns with the edited row's id take the form's values and editing ends.
   */
  function SaveUpdate(p: Page, formValid: bool, now: string, toIso: string -> string): (r: Page)
    requires Valid(p)
    ensures !IsEditing(p.editor) || !formValid ==> r == p
    ensures IsEditing(p.editor) && formValid ==>
      && r.store == Update(p.store, p.store[p.editor.editingIndex.value].id, FormChanges(p.editor.form, toIso), now)
      && !IsEditing(r.editor)
    ensures Valid(r)
  {
    if !IsEditing(p.editor) || !formValid then p
    else
      var existing := p.store[p.editor.editingIndex.value];
      var q := Publish(p, Update(p.store, existing.id, FormChanges(p.editor.form, toIso), now));
      q.(editor := ResetForm(q.editor))
  }

  /** The edited row's name, discount, target and status are the form's after `saveUpdate`; its id stays. */
  lemma SaveUpdateWritesForm(p: Page, now: string, toIso: string -> string)
    requires Valid(p) && IsEditing(p.editor)
    ensures var i := p.editor.editingIndex.value;
      var c := SaveUpdate(p, true, now, toIso).store[i];
      && c.id == p.store[i].id
      && c.name == p.editor.form.name && c.discount == p.editor.form.offerDetails
      && c.target == p.editor.form.targetSegment && c.status == p.editor.form.status
      && c.modifiedAt == now
  {
  }

  /** While editing, neither create button changes anything. */
  lemma NoCreateWhileEditing(p: Page, formValid: bool, now: string, toIso: string -> string)
    requires IsEditing(p.editor)
    ensures SaveDraft(p, formValid, now, toIso) == p
    ensures LaunchCampaign(p, formValid, now, toIso) == p
  {
  }

  /** `statusClass`: `chip-` and the status name in lower case. */
  function StatusClass(s: Status): (r: string)
    ensures r == "chip-" + Text.ToLower(StatusName(s))
  {
    match s
    case Active => "chip-active"
    case Scheduled => "chip-scheduled"
    case Completed => "chip-completed"
  }

  /** The status as the model file spells it. */
  function StatusName(s: Status): string {
    match s
    case Active => "ACTIVE"
    case Scheduled => "SCHEDULED"
    case Completed => "COMPLETED"
  }

  /** Different statuses get different chips. */
  lemma StatusClassInjective(a: Status, b: Status)
    ensures StatusClass(a) == StatusClass(b) ==> a == b
  {
    if a != b {
      assert StatusClass(a)[5] != StatusClass(b)[5];
    }
  }
}
