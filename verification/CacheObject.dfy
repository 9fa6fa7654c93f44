/** `OverviewCache` as the Go program lays it out: a snapshot map, and per cluster
    a slice of channels whose backing array is shifted and appended to in place.
    Each method is one lock region or one send, and is proved against the
    function of `CacheProtocol` that the transition system takes as that step. */
module CacheObject {
  import opened Prelude
  import opened CacheProtocol

  /** A Go slice header whose offset is 0; the capacity is the array's length. */
  datatype Slice = Slice(backing: array<ChanId>, len: nat) {

    ghost predicate Valid()
    {
      len <= backing.Length
    }

    ghost function Contents(): seq<ChanId>
      reads backing
      requires Valid()
    {
      backing[..len]
    }
  }

  /** append(slice, x): in place while there is room, else in a bigger array. */
  method Append(slice: Slice, x: ChanId) returns (r: Slice)
    requires slice.Valid()
    modifies slice.backing
    ensures r.Valid() && (r.backing == slice.backing || fresh(r.backing))
    ensures r.Contents() == old(slice.Contents()) + [x]
  {
    if slice.len < slice.backing.Length {
      slice.backing[slice.len] := x;
      return Slice(slice.backing, slice.len + 1);
    }
    var capacity: nat :| capacity > slice.len;
    var bigger := new ChanId[capacity];
    forall k | 0 <= k < slice.len {
      bigger[k] := slice.backing[k];
    }
    bigger[slice.len] := x;
    return Slice(bigger, slice.len + 1);
  }

  /** append(list[:i], list[i+1:]...): the tail moves down within the same array. */
  method DeleteAt(slice: Slice, i: nat) returns (r: Slice)
    requires slice.Valid() && i < slice.len
    modifies slice.backing
    ensures r.Valid() && r.backing == slice.backing
    ensures r.Contents() == Without(old(slice.Contents()), i)
  {
    forall k | i <= k < slice.len - 1 {
      slice.backing[k] := slice.backing[k + 1];
    }
    return Slice(slice.backing, slice.len - 1);
  }

  lemma InPrefix(list: seq<ChanId>, i: nat, j: nat)
    requires j < i <= |list|
    ensures list[j] in list[..i]
  {
    assert list[..i][j] == list[j];
  }

  lemma FirstIndex(list: seq<ChanId>, ch: ChanId, i: nat)
    requires i < |list| && list[i] == ch && ch !in list[..i]
    ensures IndexOf(list, ch) == i
  {
    var j := IndexOf(list, ch);
    if j < i {
      InPrefix(list, i, j);
    } else if i < j {
      InPrefix(list, j, i);
    }
  }

  /** The loop of Unsubscribe. */
  method Find(slice: Slice, x: ChanId) returns (r: Option<nat>)
    requires slice.Valid()
    ensures match r
      case None => x !in slice.Contents()
      case Some(i) => x in slice.Contents() && i == IndexOf(slice.Contents(), x)
  {
    ghost var list := slice.Contents();
    var i := 0;
    while i < slice.len
      invariant 0 <= i <= slice.len
      invariant x !in list[..i]
    {
      if slice.backing[i] == x {
        FirstIndex(list, x, i);
        return Some(i);
      }
      i := i + 1;
    }
    assert list[..i] == list;
    return None;
  }

  function ListOf(lists: map<Cluster, seq<ChanId>>, c: Cluster): seq<ChanId> {
    if c in lists then lists[c] else []
  }

  /** The `subs` map: no two clusters share a backing array. */
  class SubscriberLists {
    var slices: map<Cluster, Slice>
    /** What the slices hold. */
    ghost var lists: map<Cluster, seq<ChanId>>
    /** The backing arrays handed out, and the one cluster each serves. */
    ghost var owner: map<array<ChanId>, Cluster>

    ghost predicate SliceOk(c: Cluster)
      reads this, owner.Keys
      requires c in slices && c in lists
    {
      && slices[c].backing in owner && owner[slices[c].backing] == c
      && slices[c].Valid() && slices[c].Contents() == lists[c]
    }

    ghost predicate Valid()
      reads this, owner.Keys
    {
      lists.Keys == slices.Keys && forall c :: c in slices ==> SliceOk(c)
    }

    constructor ()
      ensures Valid() && lists == map[] && owner == map[]
    {
      slices, lists, owner := map[], map[], map[];
    }

    method Add(name: Cluster, ch: ChanId)
      requires Valid()
      modifies this, owner.Keys
      ensures Valid() && fresh(owner.Keys - old(owner.Keys))
      ensures lists == old(lists)[name := ListOf(old(lists), name) + [ch]]
    {
      var empty := new ChanId[0];
      var slice := Append(if name in slices then slices[name] else Slice(empty, 0), ch);
      forall c | c in slices && c != name ensures SliceOk(c) {
        assert old(SliceOk(c));
      }
      Assign(name, slice);
    }

    /** `subs[name] = slice`. */
    method Assign(name: Cluster, slice: Slice)
      requires lists.Keys == slices.Keys && forall c :: c in slices && c != name ==> SliceOk(c)
      requires slice.Valid() && (slice.backing in owner ==> owner[slice.backing] == name)
      modifies this
      ensures Valid() && lists == old(lists)[name := slice.Contents()] && owner == old(owner)[slice.backing := name]
    {
      slices, lists := slices[name := slice], lists[name := slice.Contents()];
      owner := owner[slice.backing := name];
      forall c | c in slices ensures SliceOk(c) {
        assert c != name ==> old(SliceOk(c));
      }
    }

    /** Removes the first occurrence of `ch`, if there is one. */
    method Remove(name: Cluster, ch: ChanId) returns (found: bool)
      requires Valid()
      modifies this, owner.Keys
      ensures Valid() && owner == old(owner)
      ensures var list := ListOf(old(lists), name);
        && (found <==> ch in list)
        && lists == if ch in list then old(lists)[name := Without(list, IndexOf(list, ch))] else old(lists)
    {
      if name !in slices {
        return false;
      }
      var at := Find(slices[name], ch);
      if at == None {
        return false;
      }
      var slice := DeleteAt(slices[name], at.value);
      forall c | c in slices && c != name ensures SliceOk(c) {
        assert old(SliceOk(c));
      }
      Assign(name, slice);
      return true;
    }

    /** A new array with the list of `name`. */
    method Copy(name: Cluster) returns (list: array<ChanId>)
      requires Valid()
      ensures fresh(list) && list[..] == ListOf(lists, name)
    {
      var len := if name in slices then slices[name].len else 0;
      list := new ChanId[len];
      forall k | 0 <= k < len {
        list[k] := slices[name].backing[k];
      }
    }

    method Delete(name: Cluster)
      requires Valid()
      modifies this
      ensures Valid() && owner == old(owner) && lists == old(lists) - {name}
    {
      slices, lists := slices - {name}, lists - {name};
      forall c | c in slices ensures SliceOk(c) {
        assert old(SliceOk(c));
      }
    }
  }

  class OverviewCache {
    var entries: map<Cluster, Snapshot>
    const subs: SubscriberLists
    /** The channels, which the Go runtime keeps. */
    var chans: map<ChanId, Channel>

    ghost function View(): Shared
      reads this, subs
    {
      Shared(entries, subs.lists, chans)
    }

    constructor ()
      ensures subs.Valid() && fresh(subs) && subs.owner == map[] && View() == EMPTY_SHARED
    {
      entries, chans := map[], map[];
      subs := new SubscriberLists();
    }

    method Store(name: Cluster, snap: Snapshot)
      modifies `entries
      ensures View() == Stored(old(View()), name, snap)
    {
      entries := entries[name := snap];
    }

    method Get(name: Cluster) returns (r: Option<Snapshot>)
      ensures r == Current(View(), name)
    {
      r := if name in entries then Some(entries[name]) else None;
    }

    /** The lock region of Subscribe, on the channel it has just made. */
    method Register(name: Cluster, ch: ChanId)
      requires subs.Valid() && ch !in chans
      modifies this, subs, subs.owner.Keys
      ensures subs.Valid() && fresh(subs.owner.Keys - old(subs.owner.Keys))
      ensures View() == Registered(old(View()), name, ch)
    {
      subs.Add(name, ch);
      chans := chans[ch := EMPTY_CHANNEL];
    }

    /** A non-blocking send; on a closed channel it stops the process. */
    method TrySend(source: Source, ch: ChanId, snap: Snapshot) returns (panic: Option<Panic>)
      requires ch in chans
      modifies `chans
      ensures match CacheProtocol.TrySend(old(View()), source, ch, snap)
        case Done(sh) => panic == None && View() == sh
        case Panicked(p) => panic == Some(p) && View() == old(View())
    {
      var chan := chans[ch];
      if chan.closed {
        return Some(SendOnClosed(source, ch));
      }
      var accepted := |chan.buffer| < CAPACITY;
      if accepted {
        chan := chan.(buffer := chan.buffer + [snap]);
      }
      chans := chans[ch := chan.(attempts := chan.attempts + [Attempt(source, snap, accepted)])];
      return None;
    }

    method Close(ch: ChanId) returns (panic: Option<Panic>)
      requires ch in chans
      modifies `chans
      ensures if old(chans)[ch].closed
        then panic == Some(CloseOfClosed(ch)) && chans == old(chans)
        else panic == None && chans == old(chans)[ch := old(chans)[ch].(closed := true)]
    {
      if chans[ch].closed {
        return Some(CloseOfClosed(ch));
      }
      chans := chans[ch := chans[ch].(closed := true)];
      return None;
    }

    /** Unsubscribe: find the channel, shift the tail over it in place, close it. */
    method Unsubscribe(name: Cluster, ch: ChanId) returns (panic: Option<Panic>)
      requires subs.Valid() && Allocated(View(), Subscribers(View(), name))
      modifies this, subs, subs.owner.Keys
      ensures subs.Valid() && subs.owner == old(subs.owner)
      ensures match Unsubscribed(old(View()), name, ch)
        case Done(sh) => panic == None && View() == sh
        case Panicked(p) => panic == Some(p)
    {
      var found := subs.Remove(name, ch);
      if found {
        panic := Close(ch);
      } else {
        panic := None;
      }
    }

    /** The lock region of broadcast: the copy is a new array. */
    method CopyList(name: Cluster) returns (list: array<ChanId>)
      requires subs.Valid()
      ensures fresh(list) && list[..] == Subscribers(View(), name)
    {
      list := subs.Copy(name);
    }

    /** The loop of closeSubs. */
    method CloseList(slice: Slice) returns (panic: Option<Panic>)
      requires slice.Valid() && forall x :: x in slice.Contents() ==> x in chans
      modifies `chans
      ensures match CloseEach(old(chans), slice.Contents())
        case None => panic == Some(CloseOfClosed(FirstClosed(old(chans), slice.Contents())))
        case Some(after) => panic == None && chans == after
    {
      ghost var list := slice.Contents();
      var i := 0;
      while i < slice.len
        invariant 0 <= i <= slice.len == |list| && list == slice.Contents()
        invariant forall x :: x in list ==> x in chans
        invariant CloseEach(old(chans), list) == CloseEach(chans, list[i..])
        invariant CloseEach(old(chans), list).None? ==> FirstClosed(old(chans), list) == FirstClosed(chans, list[i..])
      {
        var ch := slice.backing[i];
        assert list[i..][0] == ch && list[i..][1..] == list[i + 1..];
        panic := Close(ch);
        if panic.Some? {
          return;
        }
        i := i + 1;
      }
      return None;
    }

    method CloseSubs(name: Cluster) returns (panic: Option<Panic>)
      requires subs.Valid() && Allocated(View(), Subscribers(View(), name))
      modifies this, subs
      ensures subs.Valid() && subs.owner == old(subs.owner)
      ensures match SubsClosed(old(View()), name)
        case Done(sh) => panic == None && View() == sh
        case Panicked(p) => panic == Some(p)
    {
      if name in subs.slices {
        assert subs.SliceOk(name);
        panic := CloseList(subs.slices[name]);
        if panic.Some? {
          return;
        }
      }
      subs.Delete(name);
      return None;
    }
  }

  /** Every registered channel exists. */
  ghost predicate Live(sh: Shared) {
    forall c :: c in sh.subs ==> Allocated(sh, sh.subs[c])
  }

  lemma RegisteredLive(sh: Shared, c: Cluster, ch: ChanId)
    requires Live(sh)
    ensures Live(Registered(sh, c, ch))
  {
  }

  lemma UnsubscribedLive(sh: Shared, c: Cluster, ch: ChanId)
    requires Live(sh) && Allocated(sh, Subscribers(sh, c)) && Unsubscribed(sh, c, ch).Done?
    ensures Live(Unsubscribed(sh, c, ch).shared)
  {
  }

  lemma SubsClosedLive(sh: Shared, c: Cluster)
    requires Live(sh) && Allocated(sh, Subscribers(sh, c)) && SubsClosed(sh, c).Done?
    ensures Live(SubsClosed(sh, c).shared)
  {
    CloseEachKeys(sh.chans, Subscribers(sh, c));
  }

  lemma {:induction false} CloseEachKeys(chans: map<ChanId, Channel>, list: seq<ChanId>)
    requires (forall x :: x in list ==> x in chans) && CloseEach(chans, list).Some?
    ensures CloseEach(chans, list).value.Keys == chans.Keys
  {
    if list != [] {
      CloseEachKeys(chans[list[0] := chans[list[0]].(closed := true)], list[1..]);
    }
  }

  /** What other goroutines may do to the subscriber lists during a broadcast. */
  datatype Change =
    | Join(name: Cluster, ch: ChanId)
    | Leave(name: Cluster, ch: ChanId)
    | Shutdown(name: Cluster)

  /** Whatever subscribers and refreshers do meanwhile, the list a broadcast has copied stays as
      it was copied: no shift or append reaches it. */
  method CopySurvives(cache: OverviewCache, name: Cluster, changes: seq<Change>) returns (list: array<ChanId>)
    requires cache.subs.Valid() && Live(cache.View())
    modifies cache, cache.subs, cache.subs.owner.Keys
    ensures list[..] == old(Subscribers(cache.View(), name))
  {
    hide Registered, Unsubscribed, SubsClosed;
    list := cache.CopyList(name);
    for i := 0 to |changes|
      invariant cache.subs.Valid() && Live(cache.View()) && fresh(cache.subs.owner.Keys - old(cache.subs.owner.Keys))
      invariant list !in cache.subs.owner && fresh(list)
      invariant list[..] == old(Subscribers(cache.View(), name))
    {
      ghost var before := cache.View();
      match changes[i]
      case Join(c, ch) =>
        if ch !in cache.chans {
          cache.Register(c, ch);
          RegisteredLive(before, c, ch);
        }
      case Leave(c, ch) =>
        var panic := cache.Unsubscribe(c, ch);
        if panic.Some? {
          return;
        }
        UnsubscribedLive(before, c, ch);
      case Shutdown(c) =>
        var panic := cache.CloseSubs(c);
        if panic.Some? {
          return;
        }
        SubsClosedLive(before, c);
    }
  }
}
