/**
 * The checklist service: validation of a checklist item, the add, update,
 * remove and toggle calls with their error shaping, the role label table,
 * and the identity normalisation of `formatChecklistForDisplay`.
 */
module ChecklistService {
  import opened Js
  import opened Http
  import Roles

  /** A checklist item as the server stores it; `dbId` is MongoDB's `_id`. */
  datatype Item = Item(id: Option<string>, dbId: Option<string>, title: string, content: string,
                       completed: bool, createdAt: int)

  /** The checklist of one role in one project; `items` may be missing. */
  datatype Checklist = Checklist(projectId: string, role: string, items: Option<seq<Item>>)

  /** The form data the validator reads. */
  datatype ItemInput = ItemInput(title: Option<string>, content: Option<string>)

  /** `{itemId, completed}`, the body of a toggle request. */
  datatype Toggle = Toggle(itemId: string, completed: bool)

  /** What the calls send: an item's data or a toggle. */
  datatype Payload = ItemPayload(input: ItemInput) | TogglePayload(toggle: Toggle)

  const TitleTooShort: string := "Titel måste vara minst 3 tecken"
  const TitleTooLong: string := "Titel får inte vara längre än 100 tecken"
  const ContentTooShort: string := "Innehåll måste vara minst 10 tecken"
  const ContentTooLong: string := "Innehåll får inte vara längre än 1000 tecken"
  const Unexpected: string := "Ett oväntat fel uppstod"

  /** The trimmed length of `s` lies in `[lo, hi]` (an absent or empty `s`
      fails the lower bound). */
  predicate TrimmedWithin(s: Option<string>, lo: nat, hi: nat) {
    Truthy(s) && lo <= Length(Trim(s.value)) <= hi
  }

  /** One field with a lower and an upper bound on its trimmed length. */
  function BoundedError(s: Option<string>, key: string, lo: nat, hi: nat, short: string, long: string): (r: FieldErrors)
    ensures r.Keys <= {key}
    ensures key in r <==> !TrimmedWithin(s, lo, hi)
    ensures (!Truthy(s) || Length(Trim(s.value)) < lo) ==> r == map[key := short]
    ensures Truthy(s) && lo <= Length(Trim(s.value)) && Length(Trim(s.value)) > hi ==> r == map[key := long]
  {
    if !Truthy(s) || Length(Trim(s.value)) < lo then map[key := short]
    else if Length(Trim(s.value)) > hi then map[key := long]
    else map[]
  }

  /** validateItemData */
  function ValidateItemData(d: ItemInput): (v: Validation)
    ensures v.isValid <==> v.errors == map[]
    ensures v.errors.Keys <= {"title", "content"}
    ensures "title" in v.errors <==> !TrimmedWithin(d.title, 3, 100)
    ensures "title" in v.errors ==>
      v.errors["title"] == (if !Truthy(d.title) || Length(Trim(d.title.value)) < 3 then TitleTooShort else TitleTooLong)
    ensures "content" in v.errors <==> !TrimmedWithin(d.content, 10, 1000)
    ensures "content" in v.errors ==>
      v.errors["content"] ==
        (if !Truthy(d.content) || Length(Trim(d.content.value)) < 10 then ContentTooShort else ContentTooLong)
    ensures v.isValid <==> TrimmedWithin(d.title, 3, 100) && TrimmedWithin(d.content, 10, 1000)
  {
    var t := BoundedError(d.title, "title", 3, 100, TitleTooShort, TitleTooLong);
    var c := BoundedError(d.content, "content", 10, 1000, ContentTooShort, ContentTooLong);
    DisjointPair(t, c, "title", "content");
    Validated(t + c)
  }

  /** The catch blocks: an error the interceptor classified as an API error
      gives the server's message (or the operation's fallback), and, for
      add and update, the server's field errors; any other error gives the
      generic message. */
  function Failure(e: JsError, fallback: string, withErrors: bool): (r: Envelope<Checklist>)
    ensures !r.success && r.WellFormed() && r.item.None? && r.status.None?
    ensures e.isApiError ==> r.message == Some(OrElse(DataMessage(e), fallback))
    ensures e.isApiError ==> r.errors == (if withErrors then Some(DataErrors(e)) else None)
    ensures !e.isApiError ==> r.message == Some(Unexpected) && r.errors.None?
  {
    if e.isApiError then
      Failed(OrElse(DataMessage(e), fallback), if withErrors then Some(DataErrors(e)) else None, None)
    else Failed(Unexpected, None, None)
  }

  /** `/checklists/<projectId>/<role>` */
  function ChecklistPath(projectId: string, role: string): string {
    ChecklistsPath + "/" + projectId + "/" + role
  }

  /** addChecklistItem */
  function AddChecklistItem(projectId: string, role: string, d: ItemInput, net: ApiResult<Checklist>): (c: Call<Payload, Envelope<Checklist>>)
    ensures c.result.WellFormed()
    ensures !ValidateItemData(d).isValid ==> c.sent.None? && c.result == Rejected(ValidateItemData(d))
    ensures ValidateItemData(d).isValid ==>
      c.sent == Some(Request(Post, ChecklistPath(projectId, role) + "/items", Some(ItemPayload(d)))) &&
      c.result.success == net.Ok? &&
      (net.Ok? ==> c.result.item == Some(net.value) && c.result.message == Some("Checklistpunkt tillagd framgångsrikt")) &&
      (net.Fail? ==> c.result == Failure(net.error, "Kunde inte lägga till checklistpunkt", true))
  {
    var v := ValidateItemData(d);
    if !v.isValid then Call(None, Rejected(v))
    else
      Call(Some(Request(Post, ChecklistPath(projectId, role) + "/items", Some(ItemPayload(d)))),
           match net
           case Ok(cl) => Succeeded(cl, Some("Checklistpunkt tillagd framgångsrikt"))
           case Fail(e) => Failure(e, "Kunde inte lägga till checklistpunkt", true))
  }

  /** updateChecklistItem */
  function UpdateChecklistItem(projectId: string, role: string, itemId: string, d: ItemInput, net: ApiResult<Checklist>): (c: Call<Payload, Envelope<Checklist>>)
    ensures c.result.WellFormed()
    ensures !ValidateItemData(d).isValid ==> c.sent.None? && c.result == Rejected(ValidateItemData(d))
    ensures ValidateItemData(d).isValid ==>
      c.sent == Some(Request(Put, ChecklistPath(projectId, role) + "/items/" + itemId, Some(ItemPayload(d)))) &&
      c.result.success == net.Ok? &&
      (net.Ok? ==> c.result.item == Some(net.value) && c.result.message == Some("Checklistpunkt uppdaterad framgångsrikt")) &&
      (net.Fail? ==> c.result == Failure(net.error, "Kunde inte uppdatera checklistpunkt", true))
  {
    var v := ValidateItemData(d);
    if !v.isValid then Call(None, Rejected(v))
    else
      Call(Some(Request(Put, ChecklistPath(projectId, role) + "/items/" + itemId, Some(ItemPayload(d)))),
           match net
           case Ok(cl) => Succeeded(cl, Some("Checklistpunkt uppdaterad framgångsrikt"))
           case Fail(e) => Failure(e, "Kunde inte uppdatera checklistpunkt", true))
  }

  /** removeChecklistItem: no validation, and no field errors on failure. */
  function RemoveChecklistItem(projectId: string, role: string, itemId: string, net: ApiResult<Checklist>): (c: Call<Payload, Envelope<Checklist>>)
    ensures c.sent == Some(Request(Delete, ChecklistPath(projectId, role) + "/items/" + itemId, None))
    ensures c.result.WellFormed() && (c.result.success <==> net.Ok?)
    ensures net.Ok? ==> c.result.item == Some(net.value) && c.result.message == Some("Checklistpunkt borttagen framgångsrikt")
    ensures net.Fail? ==> c.result == Failure(net.error, "Kunde inte ta bort checklistpunkt", false)
  {
    Call(Some(Request(Delete, ChecklistPath(projectId, role) + "/items/" + itemId, None)),
         match net
         case Ok(cl) => Succeeded(cl, Some("Checklistpunkt borttagen framgångsrikt"))
         case Fail(e) => Failure(e, "Kunde inte ta bort checklistpunkt", false))
  }

  /** The success message of a toggle, which depends only on the new state. */
  function ToggleMessage(completed: bool): string {
    if completed then "Punkt markerad som klar" else "Punkt markerad som ej klar"
  }

  /** toggleChecklistItem: sends exactly `{itemId, completed}`. */
  function ToggleChecklistItem(projectId: string, role: string, itemId: string, completed: bool, net: ApiResult<Checklist>): (c: Call<Payload, Envelope<Checklist>>)
    ensures c.sent == Some(Request(Patch, ChecklistPath(projectId, role) + "/toggle", Some(TogglePayload(Toggle(itemId, completed)))))
    ensures c.result.WellFormed() && (c.result.success <==> net.Ok?)
    ensures net.Ok? ==> c.result.item == Some(net.value) && c.result.message == Some(ToggleMessage(completed))
    ensures net.Fail? ==> c.result == Failure(net.error, "Kunde inte uppdatera checklistpunkt", false)
  {
    Call(Some(Request(Patch, ChecklistPath(projectId, role) + "/toggle", Some(TogglePayload(Toggle(itemId, completed))))),
         match net
         case Ok(cl) => Succeeded(cl, Some(ToggleMessage(completed)))
         case Fail(e) => Failure(e, "Kunde inte uppdatera checklistpunkt", false))
  }

  /** The two toggle messages differ, and a successful toggle's message
      is decided by `completed` alone. */
  lemma ToggleMessageDecidedByState(p1: string, r1: string, i1: string, a: Checklist,
                                    p2: string, r2: string, i2: string, b: Checklist, completed: bool)
    ensures ToggleChecklistItem(p1, r1, i1, completed, Ok(a)).result.message ==
            ToggleChecklistItem(p2, r2, i2, completed, Ok(b)).result.message
    ensures ToggleMessage(true) != ToggleMessage(false)
  {
    assert ToggleMessage(true)[19] != ToggleMessage(false)[19];
  }

  /** A checklist item that fails validation is never sent. */
  lemma InvalidItemNeverReachesNetwork(p: string, r: string, i: string, d: ItemInput, a: ApiResult<Checklist>, b: ApiResult<Checklist>)
    ensures !ValidateItemData(d).isValid ==>
      AddChecklistItem(p, r, d, a) == AddChecklistItem(p, r, d, b) && AddChecklistItem(p, r, d, a).sent.None? &&
      UpdateChecklistItem(p, r, i, d, a) == UpdateChecklistItem(p, r, i, d, b) && UpdateChecklistItem(p, r, i, d, a).sent.None?
  {
  }

  /** getRoleDisplayName of the checklist service. */
  function RoleDisplayName(role: string): (r: string)
    ensures role == "designer" ==> r == "Designer"
    ensures role == "developer" ==> r == "Utvecklare"
    ensures role == "tester" ==> r == "Testare"
    ensures role !in Roles.NonAdmin ==> r == role
  {
    match role
    case "designer" => "Designer"
    case "developer" => "Utvecklare"
    case "tester" => "Testare"
    case _ => role
  }

  /** `{...item, id: item._id || item.id}` (the formatted date is not modelled). */
  function NormalizeItem(item: Item): (r: Item)
    ensures Truthy(item.dbId) ==> r.id == item.dbId
    ensures !Truthy(item.dbId) ==> r.id == item.id
    ensures r.(id := item.id) == item
  {
    item.(id := if Truthy(item.dbId) then item.dbId else item.id)
  }

  /** formatChecklistForDisplay: normalises every item's identity and turns
      a missing `items` into `[]`. */
  function FormatChecklistForDisplay(c: Checklist): (r: Checklist)
    ensures r.projectId == c.projectId && r.role == c.role
    ensures r.items.Some?
    ensures c.items.None? ==> r.items.value == []
    ensures c.items.Some? ==> |r.items.value| == |c.items.value|
    ensures c.items.Some? ==> forall i :: 0 <= i < |c.items.value| ==> r.items.value[i] == NormalizeItem(c.items.value[i])
  {
    match c.items
    case None => c.(items := Some([]))
    case Some(items) => c.(items := Some(seq(|items|, i requires 0 <= i < |items| => NormalizeItem(items[i]))))
  }

  /** Formatting twice is formatting once: a normalised item already
      carries its `_id` as its `id`. */
  lemma FormatIdempotent(c: Checklist)
    ensures FormatChecklistForDisplay(FormatChecklistForDisplay(c)) == FormatChecklistForDisplay(c)
  {
    var f := FormatChecklistForDisplay(c);
    var g := FormatChecklistForDisplay(f);
    assert g.items.value == f.items.value;
  }

  /** After formatting, an item with a truthy `_id` is found by that `_id`
      in the `id` field. */
  lemma FormattedItemsIdentifiedByDbId(c: Checklist, i: int)
    requires c.items.Some? && 0 <= i < |c.items.value| && Truthy(c.items.value[i].dbId)
    ensures FormatChecklistForDisplay(c).items.value[i].id == c.items.value[i].dbId
  {
  }
}
