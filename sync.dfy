/** `fetchMints`: rebuild the list of minted domains from the contract, one snapshot
    per enumerated name, published all at once or not at all. */
module Sync {
  import opened Chain

  /** One entry of the list shown under "Recently minted domains". */
  datatype Mint = Mint(id: int, name: string, record: string, avatar: string, owner: string)

  /** JavaScript's `Array.prototype.indexOf`: the first position of `x`, or -1. */
  function IndexOf<T(==)>(s: seq<T>, x: T): (k: int)
    ensures -1 <= k < |s|
    ensures k == -1 <==> x !in s
    ensures k >= 0 ==> s[k] == x && forall j :: 0 <= j < k ==> s[j] != x
  {
    if s == [] then -1
    else if s[0] == x then 0
    else
      var k := IndexOf(s[1..], x);
      if k == -1 then -1 else k + 1
  }

  /** The three reads for one name and the snapshot they make: it exists exactly
      when all three reads succeed, and for an enumerated name its id points back at
      that name's first occurrence. */
  function Snapshot(names: seq<string>, gw: Gateway, name: string): (r: Read<Mint>)
    ensures r.Got? <==> gw.records(name).Got? && gw.avatars(name).Got? && gw.owners(name).Got?
    ensures r.Got? ==> r.value.name == name && r.value.owner == gw.owners(name).value
    ensures r.Got? ==>
      r.value.record == gw.records(name).value && r.value.avatar == gw.avatars(name).value
    ensures r.Got? && name in names ==>
      0 <= r.value.id < |names| && names[r.value.id] == name &&
      forall j :: 0 <= j < r.value.id ==> names[j] != name
  {
    match (gw.records(name), gw.avatars(name), gw.owners(name))
    case (Got(record), Got(avatar), Got(owner)) =>
      Got(Mint(IndexOf(names, name), name, record, avatar, owner))
    case _ => ReadFailed
  }

  /** Snapshots of the first `k` names, or a failure if any read among them throws. */
  function Collect(names: seq<string>, gw: Gateway, k: nat): (r: Read<seq<Mint>>)
    requires k <= |names|
    ensures r.Got? ==> |r.value| == k
  {
    if k == 0 then Got([])
    else
      match Collect(names, gw, k - 1)
      case ReadFailed => ReadFailed
      case Got(ms) =>
        match Snapshot(names, gw, names[k - 1])
        case ReadFailed => ReadFailed
        case Got(m) => Got(ms + [m])
  }

  /** The new list, when one is published. Without a wallet `fetchMints` does
      nothing, which leaves the list as it is just like a failed read. A published
      list has one entry per enumerated name, and an empty registry publishes an
      empty list. */
  function Rebuild(gw: Gateway): (r: Read<seq<Mint>>)
    ensures r.Got? ==> gw.present && gw.allNames.Got? && |r.value| == |gw.allNames.value|
    ensures gw.present && gw.allNames == Got([]) ==> r == Got([])
  {
    if !gw.present then ReadFailed
    else
      match gw.allNames
      case ReadFailed => ReadFailed
      case Got(names) => Collect(names, gw, |names|)
  }

  /** The list after `fetchMints`: replaced wholesale, or unchanged. Either the list
      is left as it was, or it now holds one entry per enumerated name; without a
      wallet it is always left as it was. */
  function Refreshed(mints: seq<Mint>, gw: Gateway): (r: seq<Mint>)
    ensures r == mints || (gw.present && gw.allNames.Got? && |r| == |gw.allNames.value|)
    ensures !gw.present ==> r == mints
  {
    match Rebuild(gw)
    case Got(ms) => ms
    case ReadFailed => mints
  }

  /** Once a read among the first `k` names fails, no longer prefix succeeds. */
  lemma {:induction false} CollectFailureSticks(names: seq<string>, gw: Gateway, k: nat, n: nat)
    requires k <= n <= |names|
    requires Collect(names, gw, k).ReadFailed?
    ensures Collect(names, gw, n).ReadFailed?
    decreases n - k
  {
    if k < n {
      CollectFailureSticks(names, gw, k + 1, n);
    }
  }

  /** The collection of the first `k` names succeeds exactly when the snapshot of
      each of them does. */
  lemma {:induction false} CollectSucceedsIff(names: seq<string>, gw: Gateway, k: nat)
    requires k <= |names|
    ensures Collect(names, gw, k).Got? <==>
      forall i :: 0 <= i < k ==> Snapshot(names, gw, names[i]).Got?
  {
    if k > 0 {
      CollectSucceedsIff(names, gw, k - 1);
    }
  }

  /** Entry `i` of a successful collection is the snapshot of the `i`-th name. */
  lemma {:induction false} CollectAt(names: seq<string>, gw: Gateway, k: nat, i: nat)
    requires i < k <= |names| && Collect(names, gw, k).Got?
    ensures |Collect(names, gw, k).value| == k
    ensures Got(Collect(names, gw, k).value[i]) == Snapshot(names, gw, names[i])
  {
    var before := Collect(names, gw, k - 1);
    assert before.Got?;
    if i < k - 1 {
      CollectAt(names, gw, k - 1, i);
    } else if k > 1 {
      CollectAt(names, gw, k - 1, 0);
    }
  }

  /** A successful collection of the first `k` names holds one snapshot per name, in
      enumeration order. */
  lemma CollectShape(names: seq<string>, gw: Gateway, k: nat)
    requires k <= |names|
    ensures Collect(names, gw, k).Got? ==>
      var ms := Collect(names, gw, k).value;
      |ms| == k && forall i :: 0 <= i < k ==> Got(ms[i]) == Snapshot(names, gw, names[i])
  {
    if Collect(names, gw, k).Got? {
      if k == 0 {
        assert Collect(names, gw, k) == Got([]);
      } else {
        CollectAt(names, gw, k, 0);
      }
      forall i | 0 <= i < k ensures Got(Collect(names, gw, k).value[i]) == Snapshot(names, gw, names[i]) {
        CollectAt(names, gw, k, i);
      }
    }
  }

  /** `fetchMints` publishes a list exactly when a wallet is present, the names can
      be enumerated and every per-name read succeeds. The list has one entry per
      enumerated name, in enumeration order, with `id = names.indexOf(name)`; so an
      entry's id is at most its position, and equals it when no name repeats. */
  lemma RebuildShape(gw: Gateway)
    ensures Rebuild(gw).Got? <==>
      gw.present && gw.allNames.Got? &&
      forall i :: 0 <= i < |gw.allNames.value| ==>
        var name := gw.allNames.value[i];
        gw.records(name).Got? && gw.avatars(name).Got? && gw.owners(name).Got?
    ensures Rebuild(gw).Got? ==>
      var names, ms := gw.allNames.value, Rebuild(gw).value;
      |ms| == |names| &&
      forall i :: 0 <= i < |ms| ==>
        ms[i].name == names[i] && ms[i].id == IndexOf(names, names[i]) &&
        0 <= ms[i].id <= i && names[ms[i].id] == names[i] &&
        ms[i].record == gw.records(names[i]).value &&
        ms[i].avatar == gw.avatars(names[i]).value &&
        ms[i].owner == gw.owners(names[i]).value
  {
    if gw.present && gw.allNames.Got? {
      var names := gw.allNames.value;
      CollectSucceedsIff(names, gw, |names|);
      CollectShape(names, gw, |names|);
      if Rebuild(gw).Got? {
        var ms := Rebuild(gw).value;
        forall i | 0 <= i < |ms| ensures 0 <= IndexOf(names, names[i]) <= i {
          assert names[i] in names;
        }
      }
    }
  }

  /** With distinct names every id is the entry's own position. */
  lemma RebuildDistinctIds(gw: Gateway)
    requires Rebuild(gw).Got?
    requires forall i, j :: 0 <= i < j < |gw.allNames.value| ==> gw.allNames.value[i] != gw.allNames.value[j]
    ensures forall i :: 0 <= i < |Rebuild(gw).value| ==> Rebuild(gw).value[i].id == i
  {
    RebuildShape(gw);
  }
}
