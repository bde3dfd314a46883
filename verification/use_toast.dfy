/** The toast composable: a counter that issues toast ids, the list of shown
    toasts, and the expiry timers that remove each toast 4000 ms after it was
    shown. Every timer has the same delay, so they fire in the order they
    were set; an expiry is modelled as the event `Expire`. */
module UseToast {
  import opened Base

  const DefaultToastType: string := "error"

  /** A toast record `{ id, message, type }`. */
  datatype Toast = Toast(id: int, message: string, toastType: string)

  /** `toasts.filter(t => t.id !== id)`. */
  function Without(toasts: seq<Toast>, id: int): (r: seq<Toast>)
    ensures forall t :: t in r <==> t in toasts && t.id != id
    ensures |r| <= |toasts|
  {
    if toasts == [] then []
    else if toasts[0].id == id then Without(toasts[1..], id)
    else [toasts[0]] + Without(toasts[1..], id)
  }

  /** Filtering splits over concatenation, so the kept toasts stay in their
      original order. */
  lemma {:induction false} WithoutConcat(a: seq<Toast>, b: seq<Toast>, id: int)
    ensures Without(a + b, id) == Without(a, id) + Without(b, id)
  {
    if a == [] {
      assert a + b == b;
    } else {
      assert (a + b)[0] == a[0] && (a + b)[1..] == a[1..] + b;
      WithoutConcat(a[1..], b, id);
    }
  }

  /** Removing an id that no toast carries leaves the list unchanged. */
  lemma {:induction false} WithoutAbsent(toasts: seq<Toast>, id: int)
    requires forall i | 0 <= i < |toasts| :: toasts[i].id != id
    ensures Without(toasts, id) == toasts
  {
    if toasts != [] {
      WithoutAbsent(toasts[1..], id);
      assert [toasts[0]] + toasts[1..] == toasts;
    }
  }

  /** Removing the same id twice is removing it once. */
  lemma WithoutIdempotent(toasts: seq<Toast>, id: int)
    ensures Without(Without(toasts, id), id) == Without(toasts, id)
  {
    var r := Without(toasts, id);
    assert forall i | 0 <= i < |r| :: r[i] in r;
    WithoutAbsent(r, id);
  }

  /** Removals of two ids commute. */
  lemma {:induction false} WithoutCommutes(toasts: seq<Toast>, a: int, b: int)
    ensures Without(Without(toasts, a), b) == Without(Without(toasts, b), a)
  {
    if toasts != [] {
      WithoutCommutes(toasts[1..], a, b);
      var t := toasts[0];
      if t.id != a { WithoutConcat([t], Without(toasts[1..], a), b); }
      if t.id != b { WithoutConcat([t], Without(toasts[1..], b), a); }
    }
  }

  /** The ids of the list increase strictly from front to back. */
  predicate IdsIncreasing(toasts: seq<Toast>) {
    forall i, j | 0 <= i < j < |toasts| :: toasts[i].id < toasts[j].id
  }

  /** Filtering keeps the ids strictly increasing. */
  lemma {:induction false} WithoutKeepsIncreasing(toasts: seq<Toast>, id: int)
    requires IdsIncreasing(toasts)
    ensures IdsIncreasing(Without(toasts, id))
  {
    if toasts != [] {
      var tail := toasts[1..];
      WithoutKeepsIncreasing(tail, id);
      var r := Without(tail, id);
      if toasts[0].id != id {
        forall k | 0 <= k < |r| ensures toasts[0].id < r[k].id {
          assert r[k] in r;
          var m :| 0 <= m < |tail| && tail[m] == r[k];
          assert toasts[m + 1] == tail[m];
        }
      }
    }
  }

  /** Showing a toast and then removing it by its fresh id gives back the
      list as it was. */
  lemma {:induction false} ShowThenRemove(toasts: seq<Toast>, t: Toast)
    requires forall i | 0 <= i < |toasts| :: toasts[i].id != t.id
    ensures Without(toasts + [t], t.id) == toasts
  {
    WithoutConcat(toasts, [t], t.id);
    WithoutAbsent(toasts, t.id);
    assert Without([t], t.id) == [] by { assert [t][1..] == []; }
  }

  /** The toast state's invariant: ids increase along the list, no id is
      above the counter, the pending timers are ordered by id, and every
      toast on screen still has its timer pending. */
  ghost predicate Consistent(toasts: seq<Toast>, counter: nat, timers: seq<int>) {
    IdsIncreasing(toasts)
    && (forall i | 0 <= i < |toasts| :: 1 <= toasts[i].id <= counter && toasts[i].id in timers)
    && (forall i, j | 0 <= i < j < |timers| :: timers[i] < timers[j])
    && (forall i | 0 <= i < |timers| :: 1 <= timers[i] <= counter)
  }

  /** Showing a toast keeps the invariant: its id is above every id issued
      before, so it can repeat none of them. */
  lemma ShowKeepsConsistent(toasts: seq<Toast>, counter: nat, timers: seq<int>, message: string, toastType: string)
    requires Consistent(toasts, counter, timers)
    ensures forall i | 0 <= i < |toasts| :: toasts[i].id < counter + 1
    ensures Consistent(toasts + [Toast(counter + 1, message, toastType)], counter + 1, timers + [counter + 1])
  {
    var t' := toasts + [Toast(counter + 1, message, toastType)];
    var timers' := timers + [counter + 1];
    forall i | 0 <= i < |t'| ensures t'[i].id in timers' {
      if i < |toasts| { assert t'[i] == toasts[i]; } else { assert timers'[|timers|] == counter + 1; }
    }
  }

  /** Removing toasts by hand keeps the invariant. */
  lemma RemoveKeepsConsistent(toasts: seq<Toast>, counter: nat, timers: seq<int>, id: int)
    requires Consistent(toasts, counter, timers)
    ensures Consistent(Without(toasts, id), counter, timers)
  {
    WithoutKeepsIncreasing(toasts, id);
    var r := Without(toasts, id);
    forall i | 0 <= i < |r| ensures 1 <= r[i].id <= counter && r[i].id in timers {
      assert r[i] in r;
    }
  }

  /** The oldest timer firing keeps the invariant, and when it was the last
      one pending no toast is left on screen. */
  lemma ExpireKeepsConsistent(toasts: seq<Toast>, counter: nat, timers: seq<int>)
    requires Consistent(toasts, counter, timers) && timers != []
    ensures Consistent(Without(toasts, timers[0]), counter, timers[1..])
    ensures timers[1..] == [] ==> Without(toasts, timers[0]) == []
  {
    WithoutKeepsIncreasing(toasts, timers[0]);
    var r := Without(toasts, timers[0]);
    forall i | 0 <= i < |r| ensures 1 <= r[i].id <= counter && r[i].id in timers[1..] {
      assert r[i] in r;
      var k :| 0 <= k < |timers| && timers[k] == r[i].id;
      assert timers[1..][k - 1] == timers[k];
    }
    if r != [] { assert r[0].id in timers[1..]; }
  }

  /** The state `useToast()` returns: its list, its id counter, and the
      pending expiry timers (the ids they will remove, oldest first). */
  class ToastList {
    var toasts: seq<Toast>
    var toastIdCounter: nat
    var timers: seq<int>

    ghost predicate Valid()
      reads this
    {
      Consistent(toasts, toastIdCounter, timers)
    }

    /** `useToast()`: an empty list and a counter at 0. */
    constructor ()
      ensures Valid()
      ensures toasts == [] && toastIdCounter == 0 && timers == []
    {
      toasts, toastIdCounter, timers := [], 0, [];
    }

    /** `showToast(message, type = 'error')`: issues the next id, appends
        one record at the end, and sets its expiry timer. */
    method ShowToast(message: string, toastType: Option<string>)
      requires Valid()
      modifies this
      ensures Valid()
      ensures toastIdCounter == old(toastIdCounter) + 1
      ensures toasts == old(toasts) + [Toast(toastIdCounter, message, toastType.GetOr(DefaultToastType))]
      ensures timers == old(timers) + [toastIdCounter]
      ensures forall i | 0 <= i < |old(toasts)| :: old(toasts)[i].id < toastIdCounter
    {
      ShowKeepsConsistent(toasts, toastIdCounter, timers, message, toastType.GetOr(DefaultToastType));
      toastIdCounter := toastIdCounter + 1;
      var id := toastIdCounter;
      toasts := toasts + [Toast(id, message, toastType.GetOr(DefaultToastType))];
      timers := timers + [id];
    }

    /** `removeToast(id)`: drops every toast with that id, keeps the rest in
        order; the counter and the timers are untouched. */
    method RemoveToast(id: int)
      requires Valid()
      modifies this
      ensures Valid()
      ensures toasts == Without(old(toasts), id)
      ensures toastIdCounter == old(toastIdCounter) && timers == old(timers)
    {
      RemoveKeepsConsistent(toasts, toastIdCounter, timers, id);
      toasts := Without(toasts, id);
    }

    /** The oldest pending timer fires after its 4000 ms: it filters its id
        out exactly as `removeToast` does, so after a manual removal it
        changes nothing; once no timer is pending, no toast is left. */
    method Expire()
      requires Valid() && timers != []
      modifies this
      ensures Valid()
      ensures toasts == Without(old(toasts), old(timers)[0])
      ensures timers == old(timers)[1..] && toastIdCounter == old(toastIdCounter)
      ensures (forall i | 0 <= i < |old(toasts)| :: old(toasts)[i].id != old(timers)[0]) ==> toasts == old(toasts)
      ensures timers == [] ==> toasts == []
    {
      var id := timers[0];
      ExpireKeepsConsistent(toasts, toastIdCounter, timers);
      if forall i | 0 <= i < |toasts| :: toasts[i].id != id {
        WithoutAbsent(toasts, id);
      }
      toasts := Without(toasts, id);
      timers := timers[1..];
    }
  }

  /** The lifecycle the composable's tests walk through: a toast shown,
      dismissed by hand, and then reached by its timer, which finds nothing
      left to remove. */
  method ToastLifecycle() {
    var list := new ToastList();
    list.ShowToast("Manual dismiss", Some("success"));
    assert list.toasts == [Toast(1, "Manual dismiss", "success")];
    list.RemoveToast(1);
    assert list.toasts == [];
    list.Expire();
    assert list.toasts == [] && list.timers == [];
    list.ShowToast("Temporary message", None);
    assert list.toasts == [Toast(2, "Temporary message", "error")];
    list.Expire();
    assert list.toasts == [];
  }
}
