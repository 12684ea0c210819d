/**
 * Pointer and comparison helpers of the provider's pkg/client package that
 * the controllers call. Their Go source is not part of this model: each
 * definition below is an assumption, chosen to match the helper's name and
 * the way its callers use it.
 */
module ClientHelpers {
  import opened Wrappers

  /** zpaclient.Bool: a pointer to b. */
  function Bool(b: bool): (r: Option<bool>)
    ensures r.Some? && r.value == b
  {
    Some(b)
  }

  /** zpaclient.BoolValue: the pointed-to value, false for nil. */
  function BoolValue(b: Option<bool>): (r: bool)
    ensures r <==> b == Some(true)
  {
    match b
    case None => false
    case Some(v) => v
  }

  /** zpaclient.String: a pointer to s. */
  function String(s: string): (r: Option<string>)
    ensures r.Some? && r.value == s
  {
    Some(s)
  }

  /** zpaclient.StringValue: the pointed-to value, "" for nil. */
  function StringValue(s: Option<string>): string {
    match s
    case None => ""
    case Some(v) => v
  }

  /** zpaclient.StringToPtr: nil for the empty string, a pointer otherwise. */
  function StringToPtr(s: string): (r: Option<string>)
    ensures StringValue(r) == s
    ensures r.None? <==> s == ""
  {
    if s == "" then None else Some(s)
  }

  /** zpaclient.IsEqualString: both nil, or both set to the same value. */
  function IsEqualString(a: Option<string>, b: Option<string>): bool {
    a == b
  }

  /** zpaclient.IsEqualBool: compares the values with nil read as false. */
  function IsEqualBool(a: Option<bool>, b: Option<bool>): (r: bool)
    ensures a == b ==> r
    ensures a.Some? && b.Some? ==> (r <==> a == b)
  {
    BoolValue(a) == BoolValue(b)
  }

  /** zpaclient.IsEqualStringArrayContent: same elements, each as often, in any order. */
  function IsEqualStringArrayContent(a: seq<string>, b: seq<string>): (r: bool)
    ensures r ==> |a| == |b|
    ensures r ==> forall s :: s in a <==> s in b
  {
    assert forall s :: s in a <==> s in multiset(a);
    assert forall s :: s in b <==> s in multiset(b);
    multiset(a) == multiset(b)
  }

  /** Comparing two strings through StringToPtr is plain string equality: "" and nil are the same. */
  lemma StringToPtrComparison(a: string, b: string)
    ensures IsEqualString(StringToPtr(a), StringToPtr(b)) <==> a == b
  {
    if StringToPtr(a) == StringToPtr(b) {
      assert StringValue(StringToPtr(a)) == StringValue(StringToPtr(b));
    }
  }

  /** A set pointer compared with Bool(v) is equal exactly when it points to v. */
  lemma SetBoolComparison(a: Option<bool>, v: bool)
    requires a.Some?
    ensures IsEqualBool(a, Bool(v)) <==> a == Some(v)
  {
  }
}
