/** The action buttons of the dashboard (frontend/components/action-panel.tsx):
    the per-action busy record, the POST body, and the notice each reply
    produces. The POST itself is an input: the reply that came back, or the
    exception `fetch` or `response.json()` raised. */
module ActionPanel {
  import opened Common

  /** The four actions that reach the backend; "refresh" is the fifth button. */
  const ACTIONS: seq<string> := ["collect", "train", "detect", "clear"]

  const SUCCESS_MARK := "\U{2705} "
  const FAILURE_MARK := "\U{274C} Failed to "
  const DETECT_PREFIX := "\U{2705} Found "
  const DETECT_SUFFIX := " anomalies"

  /** What the awaited POST gave: a decoded envelope, or the exception raised
      while fetching or decoding (its `message`). */
  datatype Reply =
    | Envelope(status: string, message: Option<string>, anomaliesFound: Option<int>)
    | Thrown(error: string)

  /** Which of the parent's callbacks one invocation calls, with its text. */
  datatype Notice = OnSuccess(text: string) | OnError(text: string) | NoCallback

  /** What a click does. */
  datatype Click = Ignored | Reload | Dispatch(action: string, endpoint: string)

  /** `${x}` of a possibly absent string: JavaScript writes "undefined". */
  function TemplateText(s: Option<string>): string {
    if s.Some? then s.value else "undefined"
  }

  /** The message carried by the failure: `result.message`, or
      "<action> failed" when that is absent or empty (JavaScript's `||`). */
  function FailureReason(action: string, message: Option<string>): (r: string)
    ensures message.Some? && message.value != "" ==> r == message.value
    ensures message.None? || message.value == "" ==> r == action + " failed"
  {
    if message.Some? && message.value != "" then message.value else action + " failed"
  }

  /** The JSON body of the POST: `{num_collections: 5}` for collect only. */
  function RequestBody(action: string): (b: JsonBody)
    ensures b.Json? <==> action == "collect"
    ensures b.Json? ==> b.numCollections == Some(5)
  {
    if action == "collect" then Json(Some(5)) else NoBody
  }

  /** The notice `handleAction` gives for `reply`: any exception or
      non-"success" envelope is a failure, otherwise the action picks the
      success text; an action outside the four gives no callback at all. */
  function Notify(action: string, reply: Reply): (n: Notice)
    ensures n.OnError? <==> reply.Thrown? || reply.status != "success"
    ensures n.OnSuccess? ==> reply.Envelope? && reply.status == "success" && action in ACTIONS
    ensures n.NoCallback? <==> reply.Envelope? && reply.status == "success" && action !in ACTIONS
    ensures reply.Thrown? ==> n == OnError(FAILURE_MARK + action + ": " + reply.error)
    ensures reply.Envelope? && reply.status != "success" ==>
              n == OnError(FAILURE_MARK + action + ": " + FailureReason(action, reply.message))
  {
    match reply
    case Thrown(e) => OnError(FAILURE_MARK + action + ": " + e)
    case Envelope(status, message, found) =>
      if status != "success" then
        OnError(FAILURE_MARK + action + ": " + FailureReason(action, message))
      else if action == "collect" then
        OnSuccess(SUCCESS_MARK + TemplateText(message))
      else if action == "train" then
        OnSuccess(SUCCESS_MARK + TemplateText(message))
      else if action == "detect" then
        OnSuccess(DETECT_PREFIX + IntToString(if found.Some? then found.value else 0) + DETECT_SUFFIX)
      else if action == "clear" then
        OnSuccess("\U{2705} All data cleared")
      else
        NoCallback
  }

  /** For each of the four actions, every reply leads to exactly one of the
      two callbacks. */
  lemma ExactlyOneCallback(action: string, reply: Reply)
    requires action in ACTIONS
    ensures Notify(action, reply).OnSuccess? != Notify(action, reply).OnError?
  {
  }

  /** A successful detect reports the backend's count: the number between
      "Found " and " anomalies" reads back as `anomalies_found` (0 when absent). */
  lemma DetectReportsCount(message: Option<string>, found: Option<nat>)
    ensures var n := Notify("detect", Envelope("success", message, if found.Some? then Some(found.value as int) else None));
            var count := if found.Some? then found.value else 0;
            && n.OnSuccess?
            && |DETECT_PREFIX| + |DETECT_SUFFIX| < |n.text|
            && n.text[..|DETECT_PREFIX|] == DETECT_PREFIX
            && n.text[|n.text| - |DETECT_SUFFIX|..] == DETECT_SUFFIX
            && IsDigits(n.text[|DETECT_PREFIX|..|n.text| - |DETECT_SUFFIX|])
            && ParseNat(n.text[|DETECT_PREFIX|..|n.text| - |DETECT_SUFFIX|]) == count
  {
    var count := if found.Some? then found.value else 0;
    var digits := NatToString(count);
    var text := DETECT_PREFIX + digits + DETECT_SUFFIX;
    assert text[|DETECT_PREFIX|..|text| - |DETECT_SUFFIX|] == digits;
    ParseNatToString(count);
  }

  /** A button shows a spinner and is disabled iff its own action is in flight
      or, for refresh only, the parent is refreshing. */
  predicate ButtonBusy(busy: map<string, bool>, id: string, refreshing: bool) {
    (id in busy && busy[id]) || (id == "refresh" && refreshing)
  }

  /** The onClick dispatch of a button. A disabled button receives no click. */
  function ClickEffect(busy: map<string, bool>, id: string, refreshing: bool): (c: Click)
    ensures c.Ignored? <==> ButtonBusy(busy, id, refreshing)
    ensures c.Reload? <==> !ButtonBusy(busy, id, refreshing) && id == "refresh"
    ensures c.Dispatch? ==> c.action == id && c.endpoint == "/" + id && id != "refresh"
  {
    if ButtonBusy(busy, id, refreshing) then Ignored
    else if id == "refresh" then Reload
    else Dispatch(id, "/" + id)
  }

  /** The component's `loading` record, keyed by action name. */
  class Panel {
    var busy: map<string, bool>

    constructor ()
      ensures busy == map[]
    {
      busy := map[];
    }

    /** Entry of `handleAction`: the action's slot is set, the others kept. */
    method Begin(action: string) returns (body: JsonBody)
      modifies this
      ensures busy == old(busy)[action := true]
      ensures body == RequestBody(action)
    {
      busy := busy[action := true];
      body := RequestBody(action);
    }

    /** The settled POST: the notice is chosen, then `finally` clears the
        action's slot whatever the reply was. */
    method Finish(action: string, reply: Reply) returns (notice: Notice)
      modifies this
      ensures busy == old(busy)[action := false]
      ensures notice == Notify(action, reply)
    {
      notice := Notify(action, reply);
      busy := busy[action := false];
    }

    /** A click on button `id` while the parent's refreshing flag is
        `refreshing`: an enabled action button enters `handleAction`. */
    method Press(id: string, refreshing: bool) returns (click: Click, body: Option<JsonBody>)
      modifies this
      ensures click == ClickEffect(old(busy), id, refreshing)
      ensures click.Dispatch? ==> busy == old(busy)[id := true] && body == Some(RequestBody(id))
      ensures !click.Dispatch? ==> busy == old(busy) && body == None
    {
      click := ClickEffect(busy, id, refreshing);
      if click.Dispatch? {
        var b := Begin(id);
        body := Some(b);
      } else {
        body := None;
      }
    }

    /** One whole `handleAction` run: busy while in flight, then released, and
        one notice. */
    method HandleAction(action: string, reply: Reply) returns (notice: Notice)
      modifies this
      ensures busy == old(busy)[action := false]
      ensures notice == Notify(action, reply)
    {
      var _ := Begin(action);
      notice := Finish(action, reply);
    }
  }
}
