/** What the operator records about an object, and what the cluster knows it by. */
module Identity {

  /** The cluster's name for an object: the API version is not part of it. */
  datatype ObjectId = ObjectId(group: string, kind: string, namespace: string, name: string)

  /** What `asUnstructured` keeps of an object, and what a record entry decodes to. */
  datatype Ident = Ident(group: string, version: string, kind: string, namespace: string, name: string) {
    function Id(): ObjectId { ObjectId(group, kind, namespace, name) }
  }

  function Ids(objects: seq<Ident>): set<ObjectId> {
    set o | o in objects :: o.Id()
  }

  /** `deepContainsElementChecker.Contains`: a linear search by deep equality. */
  method Contains(list: seq<Ident>, expected: Ident) returns (found: bool)
    ensures found <==> expected in list
  {
    for n := 0 to |list|
      invariant expected !in list[..n]
    {
      if list[n] == expected { return true; }
      assert list[..n + 1] == list[..n] + [list[n]];
    }
    assert list[..|list|] == list;
    return false;
  }

  /** The items of `older` that `new` does not hold, in their order and with their repetitions. */
  function Without(older: seq<Ident>, newer: seq<Ident>): (r: seq<Ident>)
    ensures forall x :: x in r <==> x in older && x !in newer
  {
    if older == [] then []
    else
      var rest := Without(older[1..], newer);
      assert older == [older[0]] + older[1..];
      if older[0] in newer then rest else [older[0]] + rest
  }

  lemma {:induction false} WithoutSnoc(older: seq<Ident>, x: Ident, newer: seq<Ident>)
    ensures Without(older + [x], newer) == Without(older, newer) + (if x in newer then [] else [x])
  {
    if older == [] {
      assert older + [x] == [x];
    } else {
      WithoutSnoc(older[1..], x, newer);
      assert (older + [x])[1..] == older[1..] + [x];
    }
  }

  /** `diff.Diff` over the deep checker. */
  method Diff(older: seq<Ident>, newer: seq<Ident>) returns (r: seq<Ident>)
    ensures r == Without(older, newer)
  {
    r := [];
    for n := 0 to |older|
      invariant r == Without(older[..n], newer)
    {
      var held := Contains(newer, older[n]);
      assert older[..n + 1] == older[..n] + [older[n]];
      WithoutSnoc(older[..n], older[n], newer);
      if !held { r := r + [older[n]]; }
    }
    assert older[..|older|] == older;
  }

  /** The difference names no object of the new list exactly when no object of both lists changed
      its API version between them: records compare versions, the cluster does not. */
  lemma DiffSparesNewIff(older: seq<Ident>, newer: seq<Ident>)
    ensures Ids(Without(older, newer)) !! Ids(newer) <==>
            forall o, n :: o in older && n in newer && o.Id() == n.Id() ==> o in newer
  {
    var d := Without(older, newer);
    if forall o, n :: o in older && n in newer && o.Id() == n.Id() ==> o in newer {
      forall x | x in Ids(d) ensures x !in Ids(newer) {
        var o :| o in d && o.Id() == x;
        assert o in older && o !in newer;
      }
    } else {
      var o, n :| o in older && n in newer && o.Id() == n.Id() && o !in newer;
      assert o in d && o.Id() in Ids(d) && n.Id() in Ids(newer);
    }
  }
}
