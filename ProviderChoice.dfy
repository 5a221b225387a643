/** What both generation pages do with the reply of `/api/generate/providers`:
    keep `providers || []` as the list, and select the first provider whose
    `available` is truthy together with its `defaultModel`. The reply is a
    parsed JSON value; `find` runs over it only when it is an array, and a
    property read on `null` inside the search ends it with a TypeError that
    the page catches and logs. */
module ProviderChoice {
  import opened Wrappers
  import opened Js

  /** `items.find(pred)`, where `pred` may throw. */
  datatype Found = Found(value: JsValue) | NotFound | Threw

  /** The position of the first record `available` accepts, if any. */
  predicate FirstAvailableAt(items: seq<JsValue>, k: int) {
    && 0 <= k < |items|
    && Prop(items[k], "available").Some? && Truthy(Prop(items[k], "available").value)
    && forall i :: 0 <= i < k ==> Prop(items[i], "available").Some? && !Truthy(Prop(items[i], "available").value)
  }

  /** `items.find(p => p.available)`. */
  function FindAvailable(items: seq<JsValue>): (r: Found)
    ensures r.Found? <==> exists k :: FirstAvailableAt(items, k)
    ensures r.Found? ==> exists k :: FirstAvailableAt(items, k) && r.value == items[k]
    ensures r.Found? ==> Prop(r.value, "available").Some? && Truthy(Prop(r.value, "available").value)
    ensures r.NotFound? <==> forall i :: 0 <= i < |items| ==> Prop(items[i], "available").Some? && !Truthy(Prop(items[i], "available").value)
  {
    if items == [] then NotFound
    else match Prop(items[0], "available")
      case None => Threw
      case Some(a) =>
        if Truthy(a) then
          assert FirstAvailableAt(items, 0);
          Found(items[0])
        else
          AvailableAfterFirst(items);
          FindAvailable(items[1..])
  }

  /** When the first record is not available, the first available record
      of the list is the first available record of the rest. */
  lemma AvailableAfterFirst(items: seq<JsValue>)
    requires items != [] && Prop(items[0], "available").Some? && !Truthy(Prop(items[0], "available").value)
    ensures forall k :: FirstAvailableAt(items[1..], k) <==> FirstAvailableAt(items, k + 1)
    ensures (exists k :: FirstAvailableAt(items, k)) <==> (exists k :: FirstAvailableAt(items[1..], k))
    ensures forall i :: 1 <= i < |items| ==> items[i] == items[1..][i - 1]
  {
    forall k ensures FirstAvailableAt(items[1..], k) <==> FirstAvailableAt(items, k + 1) {
      if FirstAvailableAt(items, k + 1) {
        assert forall i :: 0 <= i < k ==> items[1..][i] == items[i + 1];
      }
      if FirstAvailableAt(items[1..], k) {
        forall i | 0 <= i < k + 1
          ensures Prop(items[i], "available").Some? && !Truthy(Prop(items[i], "available").value)
        {
          if i > 0 { assert items[i] == items[1..][i - 1]; }
        }
      }
    }
    if exists k :: FirstAvailableAt(items, k) {
      var k :| FirstAvailableAt(items, k);
      assert k > 0;
      assert FirstAvailableAt(items[1..], k - 1);
    }
  }

  /** There is only one first available record. */
  lemma FirstAvailableUnique(items: seq<JsValue>, k: int, k': int)
    requires FirstAvailableAt(items, k) && FirstAvailableAt(items, k')
    ensures k == k'
  {
  }

  /** The page state `fetchProviders` writes. */
  datatype Selection = Selection(providers: JsValue, provider: JsValue, model: JsValue)

  /** `fetchProviders`, given the parsed reply (`None` when `fetch` or
      `response.json()` rejects). The list is stored before the search, so
      a search that throws keeps the new list and the old selection. */
  function FetchProviders(s: Selection, reply: Option<JsValue>): (r: Selection)
    ensures reply.None? ==> r == s
    ensures reply.Some? && Prop(reply.value, "providers").None? ==> r == s
    ensures reply.Some? && Prop(reply.value, "providers").Some? ==>
      r.providers == Or(Prop(reply.value, "providers").value, Arr([]))
    ensures r.provider != s.provider || r.model != s.model ==>
      reply.Some? && Prop(reply.value, "providers").Some? && Prop(reply.value, "providers").value.Arr?
    ensures reply.Some? && Prop(reply.value, "providers").Some? && Prop(reply.value, "providers").value.Arr? ==>
      var found := FindAvailable(Prop(reply.value, "providers").value.items);
      if found.Found? then r.provider == Prop(found.value, "name").value && r.model == Prop(found.value, "defaultModel").value
      else r.provider == s.provider && r.model == s.model
  {
    match reply
    case None => s
    case Some(d) =>
      match Prop(d, "providers")
      case None => s
      case Some(list) =>
        var stored := s.(providers := Or(list, Arr([])));
        if list.Arr? then
          match FindAvailable(list.items)
          case Found(p) => stored.(provider := Prop(p, "name").value, model := Prop(p, "defaultModel").value)
          case _ => stored
        else stored
  }

  /** The default selection is the first available provider with its
      default model; when none is available the selection stays. */
  lemma DefaultIsFirstAvailable(s: Selection, items: seq<JsValue>, k: int)
    requires FirstAvailableAt(items, k)
    ensures FetchProviders(s, Some(Obj(map["providers" := Arr(items)]))) ==
      Selection(Arr(items), Prop(items[k], "name").value, Prop(items[k], "defaultModel").value)
  {
    var r := FindAvailable(items);
    var k' :| FirstAvailableAt(items, k') && r.value == items[k'];
    FirstAvailableUnique(items, k, k');
  }

  lemma NoneAvailableKeepsSelection(s: Selection, items: seq<JsValue>)
    requires forall i :: 0 <= i < |items| ==> Prop(items[i], "available").Some? && !Truthy(Prop(items[i], "available").value)
    ensures FetchProviders(s, Some(Obj(map["providers" := Arr(items)]))) == s.(providers := Arr(items))
  {
  }
}
