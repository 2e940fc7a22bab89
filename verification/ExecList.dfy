/** Exec lists of requests, as sequences of their addresses. */
module ExecList {
  type Ptr = nat

  ghost predicate Distinct(s: seq<Ptr>) {
    forall i, j :: 0 <= i < j < |s| ==> s[i] != s[j]
  }

  function RemoveAt(s: seq<Ptr>, i: nat): seq<Ptr>
    requires i < |s|
  {
    s[..i] + s[i + 1..]
  }

  function IndexOf(s: seq<Ptr>, p: Ptr): (i: nat)
    requires p in s
    ensures i < |s| && s[i] == p
  {
    if s[0] == p then 0 else 1 + IndexOf(s[1..], p)
  }

  lemma RemoveAtElements(s: seq<Ptr>, i: nat)
    requires i < |s|
    ensures var r := RemoveAt(s, i);
            && |r| == |s| - 1
            && (forall j :: 0 <= j < |r| ==> r[j] == s[if j < i then j else j + 1])
  {
  }

  lemma RemoveAtMembers(s: seq<Ptr>, i: nat)
    requires i < |s| && Distinct(s)
    ensures Distinct(RemoveAt(s, i))
    ensures forall p :: p in RemoveAt(s, i) <==> p in s && p != s[i]
  {
    var r := RemoveAt(s, i);
    RemoveAtElements(s, i);
    forall p | p in s && p != s[i] ensures p in r {
      var k :| 0 <= k < |s| && s[k] == p;
      assert p == r[if k < i then k else k - 1];
    }
  }

  lemma AppendMembers(s: seq<Ptr>, p: Ptr)
    requires Distinct(s) && p !in s
    ensures Distinct(s + [p])
    ensures forall q :: q in s + [p] <==> q in s || q == p
  {
  }
}
