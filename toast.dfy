/** The toast list of src/hooks/useToast.jsx. `add` appends a toast and, when
    it has a duration, schedules its removal; `remove` filters the list by id.
    A scheduled removal is kept as a pending timer and fires as an explicit,
    later `remove`; the random id is a parameter that the caller supplies. */
module Toast {
  import opened Wrappers
  import opened Seqs

  /** One rendered toast `{ id, type, text }`. */
  datatype Item = Item(id: string, kind: string, text: string)

  /** One call `toast(type, text)` made by a page, before `add` gives it an id. */
  datatype Notice = Notice(kind: string, text: string)

  /** A pending timer that removes the toast `id` once `delay` milliseconds have
      passed. */
  datatype Timer = Timer(id: string, delay: int)

  /** The default `duration` of `add`. */
  const DefaultDuration: int := 3000

  /** The toast list with every toast whose id is `id` removed, the rest kept in
      order. */
  function Without(items: seq<Item>, id: string): (r: seq<Item>)
  {
    Keep(items, (t: Item) => t.id != id)
  }

  /** Removing an id leaves no toast with that id, keeps every other toast as
      often as it occurred, and keeps their order. */
  lemma {:induction false} WithoutSpec(items: seq<Item>, id: string)
    ensures forall t :: t in Without(items, id) ==> t.id != id
    ensures forall t :: (multiset(Without(items, id))[t] == if t.id == id then 0 else multiset(items)[t])
    ensures IsSubseq(Without(items, id), items)
  {
    KeepIsSubseq(items, (t: Item) => t.id != id);
    forall t ensures multiset(Without(items, id))[t] == if t.id == id then 0 else multiset(items)[t] {
      KeepCount(items, (t: Item) => t.id != id, t);
    }
  }

  /** Removing an id that no toast carries changes nothing. */
  lemma {:induction false} WithoutAbsent(items: seq<Item>, id: string)
    requires forall i :: 0 <= i < |items| ==> items[i].id != id
    ensures Without(items, id) == items
  {
    KeepAll(items, (t: Item) => t.id != id);
  }

  /** Removing an id after appending a toast with a different id is the same
      as appending it after the removal, so unrelated toasts do not interfere. */
  lemma {:induction false} WithoutAppend(items: seq<Item>, t: Item, id: string)
    requires t.id != id
    ensures Without(items + [t], id) == Without(items, id) + [t]
  {
    KeepAppend(items, [t], (x: Item) => x.id != id);
  }

  class ToastProvider {
    /** The toasts on screen, oldest first. */
    var items: seq<Item>
    /** The removals `add` has scheduled and that have not fired yet. */
    var timers: seq<Timer>

    constructor ()
      ensures items == [] && timers == []
    {
      items := [];
      timers := [];
    }

    /** `add(type, text, duration = 3000)`: appends the toast and returns its
        id; schedules one removal of that id unless `duration` is falsy
        (0 here; `None` stands for the argument being left out). */
    method Add(kind: string, text: string, duration: Option<int>, freshId: string) returns (id: string)
      modifies this
      ensures id == freshId
      ensures items == old(items) + [Item(freshId, kind, text)]
      ensures duration == Some(0) ==> timers == old(timers)
      ensures duration == None ==> timers == old(timers) + [Timer(freshId, DefaultDuration)]
      ensures duration.Some? && duration.value != 0 ==> timers == old(timers) + [Timer(freshId, duration.value)]
    {
      id := freshId;
      items := items + [Item(id, kind, text)];
      var d := if duration.Some? then duration.value else DefaultDuration;
      if d != 0 {
        timers := timers + [Timer(id, d)];
      }
    }

    /** `remove(id)`. */
    method Remove(id: string)
      modifies this`items
      ensures items == Without(old(items), id)
    {
      items := Without(items, id);
    }

    /** Timer `k` fires: it is no longer pending and its id is removed. */
    method Fire(k: nat)
      requires k < |timers|
      modifies this
      ensures timers == old(timers[..k] + timers[k + 1..])
      ensures items == Without(old(items), old(timers[k].id))
    {
      var id := timers[k].id;
      timers := timers[..k] + timers[k + 1..];
      Remove(id);
    }

    /** Clicking the toast at position `k` removes it (and any toast that
        shares its id). */
    method Click(k: nat)
      requires k < |items|
      modifies this`items
      ensures items == Without(old(items), old(items[k].id))
      ensures old(items[k]) !in items
    {
      var id := items[k].id;
      WithoutSpec(items, id);
      Remove(id);
    }
  }

  /** A toast added with a fresh id and then removed by its own timer leaves
      the list as it was. */
  method AddThenExpire(p: ToastProvider, kind: string, text: string, freshId: string)
    requires forall i :: 0 <= i < |p.items| ==> p.items[i].id != freshId
    modifies p
    ensures p.items == old(p.items)
    ensures p.timers == old(p.timers)
  {
    var id := p.Add(kind, text, None, freshId);
    p.Fire(|p.timers| - 1);
    KeepAppend(old(p.items), [Item(freshId, kind, text)], (t: Item) => t.id != freshId);
    WithoutAbsent(old(p.items), freshId);
  }
}
