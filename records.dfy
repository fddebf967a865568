/**
 * What both generations of the record resource share: the identity string that
 * Terraform keeps for a record, the (output, error) pair a PowerShell runner
 * returns, and how Read turns that error into "present", "absent" or "failed".
 */
module Records {
  import opened Wrappers
  import opened GoStrings

  /** The `zone_name + "_" + record_name + "_" + record_type` identity of a record. */
  function Identity(zone: string, name: string, recordType: string): (id: string)
    ensures |id| == |zone| + |name| + |recordType| + 2
  {
    zone + "_" + name + "_" + recordType
  }

  /** Position of the first '_' in `s`, or `|s|` when there is none. */
  function FirstUnderscore(s: string): (k: nat)
    ensures k <= |s|
    ensures forall j :: 0 <= j < k ==> s[j] != '_'
    ensures k < |s| ==> s[k] == '_'
  {
    if s == [] || s[0] == '_' then 0 else 1 + FirstUnderscore(s[1..])
  }

  lemma {:induction false} FirstUnderscoreAfter(a: string, b: string)
    requires '_' !in a
    ensures FirstUnderscore(a + "_" + b) == |a|
  {
    var s := a + "_" + b;
    var k := FirstUnderscore(s);
    assert s[|a|] == '_';
    forall j | 0 <= j < |a| ensures s[j] != '_' {
      assert s[j] == a[j];
    }
  }

  /** Splitting at the first '_' is unique when the left part holds no '_'. */
  lemma {:induction false} SplitAtUnderscore(a1: string, b1: string, a2: string, b2: string)
    requires '_' !in a1 && '_' !in a2
    requires a1 + "_" + b1 == a2 + "_" + b2
    ensures a1 == a2 && b1 == b2
  {
    var s := a1 + "_" + b1;
    FirstUnderscoreAfter(a1, b1);
    FirstUnderscoreAfter(a2, b2);
    assert |a1| == |a2|;
    assert a1 == s[..|a1|] == a2;
    assert b1 == s[|a1| + 1..] == b2;
  }

  /**
   * Two records whose zone and record names hold no '_' share an identity only
   * when they agree on zone, name and type: the identity is then a faithful
   * reconciliation key.
   */
  lemma {:induction false} IdentityInjective(z1: string, n1: string, t1: string, z2: string, n2: string, t2: string)
    requires '_' !in z1 && '_' !in n1 && '_' !in z2 && '_' !in n2
    requires Identity(z1, n1, t1) == Identity(z2, n2, t2)
    ensures z1 == z2 && n1 == n2 && t1 == t2
  {
    assert Identity(z1, n1, t1) == z1 + "_" + (n1 + "_" + t1);
    assert Identity(z2, n2, t2) == z2 + "_" + (n2 + "_" + t2);
    SplitAtUnderscore(z1, n1 + "_" + t1, z2, n2 + "_" + t2);
    SplitAtUnderscore(n1, t1, n2, t2);
  }

  /**
   * Without that restriction the key is ambiguous: zone "a_b" with record "c"
   * and zone "a" with record "b_c" get the same identity.
   */
  lemma IdentityCollision()
    ensures Identity("a_b", "c", "A") == Identity("a", "b_c", "A")
    ensures ("a_b", "c") != ("a", "b_c")
  {
  }

  /** What a PowerShell runner hands back: its output and, when it failed, the error text. */
  datatype CallResult = CallResult(output: string, err: Option<string>)

  /** The text Read looks for in an error to recognise a missing record. */
  const NotFoundMarker: string := "ObjectNotFound"

  datatype ReadVerdict = Present | Absent | Failed(message: string)

  /**
   * Read's reading of the runner's error: no error means the record exists, an
   * error that mentions "ObjectNotFound" anywhere means it is gone, and any other
   * error is passed back to the caller unchanged.
   */
  function InterpretRead(err: Option<string>): (v: ReadVerdict)
    ensures v == Present <==> err.None?
    ensures v == Absent <==> err.Some? && Contains(err.value, NotFoundMarker)
    ensures v.Failed? ==> err == Some(v.message)
  {
    match err
    case None => Present
    case Some(msg) => if Contains(msg, NotFoundMarker) then Absent else Failed(msg)
  }

  /** A not-found error is recognised wherever the marker sits in its text. */
  lemma NotFoundAnywhere(before: string, after: string)
    ensures InterpretRead(Some(before + NotFoundMarker + after)) == Absent
  {
    ContainsInfix(before, NotFoundMarker, after);
  }
}
