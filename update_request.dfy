/** UpdateHierarchyRequest: the request that saves a reordered hierarchy. It is
    authorised only when the tool has an order key and reordering enabled, and
    it validates that the payload carries a hierarchy array. */
module UpdateRequest {
  import opened Values
  import opened Tool

  /** `isset($config['orderKey']) && $config['orderKey']`: set, and neither '' nor '0'. */
  predicate HasOrderKey(c: Config) {
    c.orderKey.Some? && !Falsy(Str(c.orderKey.value))
  }

  /** authorize(): `toolAllows` is the tool's reorder permission for the user and
      `parentAllows` the Nova request's own authorisation; both are outside this
      model and are asked only in the order the checks run. */
  function Authorize(c: Config, toolAllows: bool, parentAllows: bool): (ok: bool)
    ensures ok ==> HasOrderKey(c) && c.enableReordering && toolAllows
    ensures HasOrderKey(c) && c.enableReordering && toolAllows ==> ok == parentAllows
  {
    if !HasOrderKey(c) then false
    else if !c.enableReordering then false
    else if !toolAllows then false
    else parentAllows
  }

  /** A new tool never authorises an update: it has no order key and reordering is off. */
  lemma FreshToolRefuses(r: Resource, rtl: bool, toolAllows: bool, parentAllows: bool)
    ensures !Authorize(GetConfig(Defaults(), r, rtl), toolAllows, parentAllows)
  {
    FreshConfig(r, rtl);
  }

  /** enableReordering() on a tool whose order key is unset, or set to a truthy
      name, passes the order-key and enabled checks: the answer is then the
      tool's permission and the request's own authorisation. */
  lemma EnabledReorderingDefers(s: Settings, r: Resource, rtl: bool, toolAllows: bool, parentAllows: bool)
    requires s.customKeyMappings.orderKey.None? || !Falsy(Str(s.customKeyMappings.orderKey.value))
    ensures Authorize(GetConfig(WithReordering(s, true), r, rtl), toolAllows, parentAllows)
      == (toolAllows && parentAllows)
  {
    ReorderingOrderKey(s, r, true);
  }

  /** With reordering switched off, no update is authorised, whatever the order key. */
  lemma DisabledReorderingRefuses(s: Settings, r: Resource, rtl: bool, toolAllows: bool, parentAllows: bool)
    ensures !Authorize(GetConfig(WithReordering(s, false), r, rtl), toolAllows, parentAllows)
  {
    ReorderingOrderKey(s, r, false);
  }

  /** keyNames(..., '') or keyNames(..., '0') leaves an order key that
      enableReordering() keeps (it is set) but the authorisation rejects (it is falsy). */
  lemma FalsyOrderKeyRefuses(s: Settings, r: Resource, rtl: bool, idKey: string, parentKey: string,
                             orderKey: string, toolAllows: bool, parentAllows: bool)
    requires orderKey == "" || orderKey == "0"
    ensures var t := WithReordering(WithKeyNames(s, idKey, parentKey, Some(orderKey)), true);
      !Authorize(GetConfig(t, r, rtl), toolAllows, parentAllows)
  {
    ReorderingOrderKey(WithKeyNames(s, idKey, parentKey, Some(orderKey)), r, true);
  }

  // ---------------------------------------------------------------------------
  // Validation

  /** A request input value, as far as the rules look at it. */
  datatype Value = Null | Bool(b: bool) | Number(n: int) | Text(s: string) | Array(items: seq<Value>)

  /** The two validation rules the request uses. */
  datatype Rule = Required | IsArray

  /** rules(): the hierarchy field is required and must be an array. */
  function Rules(): map<string, seq<Rule>> {
    map["hierarchy" := [Required, IsArray]]
  }

  predicate Blank(s: string) {
    forall i :: 0 <= i < |s| ==> s[i] in {' ', '\t', '\n', '\r', '\0', '\U{0B}'}
  }

  /** Whether one rule passes for a field that holds `v` (None when the field
      is absent). 'required' fails on an absent field, null, a blank string and
      an empty array; a rule other than 'required' is not applied to an absent field. */
  function Passes(rule: Rule, v: Option<Value>): (ok: bool)
    ensures rule == Required && ok ==> v.Some? && v.value != Null
    ensures rule == IsArray && v.Some? ==> (ok <==> v.value.Array?)
  {
    match rule
    case Required =>
      (match v
       case None => false
       case Some(Null) => false
       case Some(Text(s)) => !Blank(s)
       case Some(Array(items)) => |items| > 0
       case Some(_) => true)
    case IsArray => v.None? || v.value.Array?
  }

  /** Every rule of every field passes. */
  predicate Validates(rules: map<string, seq<Rule>>, input: map<string, Value>) {
    forall field, i :: field in rules && 0 <= i < |rules[field]| ==>
      Passes(rules[field][i], if field in input then Some(input[field]) else None)
  }

  /** The request's payload is accepted exactly when it has a non-empty hierarchy array. */
  lemma AcceptsExactlyHierarchyArrays(input: map<string, Value>)
    ensures Validates(Rules(), input) <==>
      "hierarchy" in input && input["hierarchy"].Array? && |input["hierarchy"].items| > 0
  {
    var v := if "hierarchy" in input then Some(input["hierarchy"]) else None;
    assert Rules()["hierarchy"][0] == Required && Rules()["hierarchy"][1] == IsArray;
    if Validates(Rules(), input) {
      assert Passes(Required, v) && Passes(IsArray, v);
    }
  }
}
