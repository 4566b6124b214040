/**
 * The profile page's availability handling.  The backend sends availability
 * as an array of `{day, available}` slots; the page keeps it as an object with
 * one boolean per weekday, lets checkboxes change single days, and turns the
 * object back into an array on submit.  A JavaScript object is modelled as its
 * entries in insertion order.  That is the order `Object.entries` returns here
 * only because every key is a weekday name: integer-like keys would come first.
 */
module Profile {
  import opened Wrappers
  import opened Sessions

  const Days: seq<string> := ["Monday", "Tuesday", "Wednesday", "Thursday", "Friday", "Saturday", "Sunday"]

  /** One slot of a fetched availability array; `available` may be missing. */
  datatype Slot = Slot(day: string, available: Option<bool>)

  /** A JavaScript object with string keys: its entries in insertion order. */
  type Obj<V> = seq<(string, V)>

  function Keys<V>(o: Obj<V>): (ks: seq<string>)
    ensures |ks| == |o| && forall i :: 0 <= i < |o| ==> ks[i] == o[i].0
  {
    seq(|o|, i requires 0 <= i < |o| => o[i].0)
  }

  predicate UniqueKeys<V>(o: Obj<V>) {
    forall i, j :: 0 <= i < j < |o| ==> o[i].0 != o[j].0
  }

  /** `o[k]`: the value stored under `k`, or `undefined`. */
  function Lookup<V>(o: Obj<V>, k: string): (r: Option<V>)
    ensures r.None? <==> k !in Keys(o)
    ensures r.Some? ==> exists i :: 0 <= i < |o| && o[i] == (k, r.value)
    decreases |o|
  {
    if o == [] then None
    else if o[0].0 == k then Some(o[0].1)
    else Lookup(o[1..], k)
  }

  /** `o[k] = v`: overwrite the entry for `k` where it stands, or append a new entry at the end. */
  function SetKey<V>(o: Obj<V>, k: string, v: V): (r: Obj<V>)
    ensures k in Keys(o) ==> Keys(r) == Keys(o)
    ensures k !in Keys(o) ==> r == o + [(k, v)]
    decreases |o|
  {
    if o == [] then [(k, v)]
    else if o[0].0 == k then [(k, v)] + o[1..]
    else [o[0]] + SetKey(o[1..], k, v)
  }

  /** After `o[k] = v`, `k` reads `v` and every other key reads what it read before. */
  lemma {:induction false} SetKeyLookup<V>(o: Obj<V>, k: string, v: V, k': string)
    ensures Lookup(SetKey(o, k, v), k) == Some(v)
    ensures k' != k ==> Lookup(SetKey(o, k, v), k') == Lookup(o, k')
    decreases |o|
  {
    if o != [] && o[0].0 != k {
      SetKeyLookup(o[1..], k, v, k');
      assert ([o[0]] + SetKey(o[1..], k, v))[1..] == SetKey(o[1..], k, v);
    } else if o != [] {
      assert ([(k, v)] + o[1..])[1..] == o[1..];
    }
  }

  /** `o[k] = v` never creates a second entry for a key. */
  lemma SetKeyUnique<V>(o: Obj<V>, k: string, v: V)
    requires UniqueKeys(o)
    ensures UniqueKeys(SetKey(o, k, v))
  {
    var r := SetKey(o, k, v);
    if k in Keys(o) {
      forall i, j | 0 <= i < j < |r| ensures r[i].0 != r[j].0 {
        assert Keys(r)[i] == Keys(o)[i] && Keys(r)[j] == Keys(o)[j];
      }
    }
  }

  /** The value of `day` in the `availabilityMap` built from `slots`: that of its last slot, `undefined` when it has none. */
  function LastAvailable(slots: seq<Slot>, day: string): (r: Option<bool>)
    ensures (forall i :: 0 <= i < |slots| ==> slots[i].day != day) ==> r.None?
    ensures forall i :: 0 <= i < |slots| && slots[i].day == day && (forall j :: i < j < |slots| ==> slots[j].day != day) ==>
              r == slots[i].available
    decreases |slots|
  {
    if slots == [] then None
    else if slots[|slots| - 1].day == day then slots[|slots| - 1].available
    else LastAvailable(slots[..|slots| - 1], day)
  }

  /** `availabilityMap[day] || false`. */
  function Checked(v: Option<bool>): bool {
    v == Some(true)
  }

  function Get(m: map<string, Option<bool>>, day: string): Option<bool> {
    if day in m then m[day] else None
  }

  /** The availability object `fetchProfile` builds: each weekday, in order, with the value of its last slot, false when missing. */
  function NormalizedAvailability(slots: seq<Slot>): (o: Obj<bool>)
    ensures Keys(o) == Days && UniqueKeys(o)
    ensures forall i :: 0 <= i < 7 ==> o[i].1 == Checked(LastAvailable(slots, Days[i]))
  {
    seq(7, i requires 0 <= i < 7 => (Days[i], Checked(LastAvailable(slots, Days[i]))))
  }

  /** What the backend returns for the signed-in user's profile; absent fields are `None`. */
  datatype ProfileResponse = ProfileResponse(name: string, timezone: Option<string>, availability: Option<seq<Slot>>)

  /** The page's `profile` state. */
  datatype ProfileForm = ProfileForm(name: string, timezone: string, availability: Obj<bool>)

  /**
   * `fetchProfile`: records every slot's value by day (later slots overwrite
   * earlier ones), then fills the seven weekdays in order; the time zone falls
   * back to the browser's when the response has none.
   */
  method FetchProfile(response: ProfileResponse, browserTimezone: string) returns (p: ProfileForm)
    ensures p.name == response.name
    ensures p.timezone == if Present(response.timezone) then response.timezone.value else browserTimezone
    ensures Keys(p.availability) == Days
    ensures forall i :: 0 <= i < 7 ==>
              p.availability[i].1 == Checked(LastAvailable(response.availability.GetOr([]), Days[i]))
  {
    var current := response.availability.GetOr([]);
    var availabilityMap: map<string, Option<bool>> := map[];
    var i := 0;
    while i < |current|
      invariant 0 <= i <= |current|
      invariant forall d :: Get(availabilityMap, d) == LastAvailable(current[..i], d)
    {
      assert current[..i + 1][..i] == current[..i];
      availabilityMap := availabilityMap[current[i].day := current[i].available];
      i := i + 1;
    }
    assert current[..|current|] == current;
    var full: Obj<bool> := [];
    var j := 0;
    while j < |Days|
      invariant 0 <= j <= |Days|
      invariant Keys(full) == Days[..j]
      invariant forall k :: 0 <= k < j ==> full[k].1 == Checked(LastAvailable(current, Days[k]))
    {
      assert Days[j] !in Days[..j];
      full := SetKey(full, Days[j], Checked(Get(availabilityMap, Days[j])));
      j := j + 1;
    }
    var timezone := if Present(response.timezone) then response.timezone.value else browserTimezone;
    p := ProfileForm(response.name, timezone, full);
    assert full == NormalizedAvailability(current);
  }

  /** `handleAvailabilityChange(day, checked)`: only `availability[day]` changes. */
  function ChangeAvailability(p: ProfileForm, day: string, checked: bool): (q: ProfileForm)
    requires UniqueKeys(p.availability)
    ensures q.name == p.name && q.timezone == p.timezone
    ensures Lookup(q.availability, day) == Some(checked)
    ensures forall d :: d != day ==> Lookup(q.availability, d) == Lookup(p.availability, d)
    ensures UniqueKeys(q.availability)
    ensures day in Keys(p.availability) ==> Keys(q.availability) == Keys(p.availability)
  {
    var q := p.(availability := SetKey(p.availability, day, checked));
    SetKeyLookup(p.availability, day, checked, day);
    SetKeyUnique(p.availability, day, checked);
    forall d | d != day ensures Lookup(q.availability, d) == Lookup(p.availability, d) {
      SetKeyLookup(p.availability, day, checked, d);
    }
    q
  }

  /** The body `handleSubmit` sends. */
  datatype ProfilePayload = ProfilePayload(name: string, timezone: string, availability: seq<Slot>)

  /** `Object.entries(availability).map(([day, available]) => ({day, available}))`, one slot per key in key order. */
  function ToSlots(o: Obj<bool>): (slots: seq<Slot>)
    ensures |slots| == |o|
    ensures forall i :: 0 <= i < |o| ==> slots[i] == Slot(o[i].0, Some(o[i].1))
  {
    seq(|o|, i requires 0 <= i < |o| => Slot(o[i].0, Some(o[i].1)))
  }

  /** `handleSubmit`'s payload: the profile with its availability object turned into slots. */
  function SubmitPayload(p: ProfileForm): (d: ProfilePayload)
    ensures d.name == p.name && d.timezone == p.timezone
    ensures d.availability == ToSlots(p.availability)
    ensures |d.availability| == |p.availability|
    ensures forall i :: 0 <= i < |p.availability| ==> d.availability[i].day == p.availability[i].0
  {
    ProfilePayload(p.name, p.timezone, ToSlots(p.availability))
  }

  /** With unique keys, the last slot for a key in the submitted array is the one carrying that key's value. */
  lemma {:induction false} LastAvailableOfSlots(o: Obj<bool>, k: nat)
    requires UniqueKeys(o) && k < |o|
    ensures LastAvailable(ToSlots(o), o[k].0) == Some(o[k].1)
    decreases |o|
  {
    var slots := ToSlots(o);
    if k < |o| - 1 {
      var init := o[..|o| - 1];
      assert ToSlots(init) == slots[..|slots| - 1];
      LastAvailableOfSlots(init, k);
    }
  }

  /** Round trip: the array submitted from a normalised availability object normalises back to the same object. */
  lemma SubmitThenFetch(p: ProfileForm)
    requires Keys(p.availability) == Days
    ensures NormalizedAvailability(SubmitPayload(p).availability) == p.availability
  {
    var o := p.availability;
    assert UniqueKeys(o) by {
      assert Days[0] != Days[1] && Days[0] != Days[2];
    }
    var n := NormalizedAvailability(ToSlots(o));
    assert |n| == |Keys(n)| == 7 == |Keys(o)| == |o|;
    forall i | 0 <= i < 7
      ensures n[i] == o[i]
    {
      LastAvailableOfSlots(o, i);
      assert o[i].0 == Keys(o)[i] == Days[i];
      assert LastAvailable(ToSlots(o), Days[i]) == Some(o[i].1);
      assert n[i] == (Days[i], Checked(LastAvailable(ToSlots(o), Days[i])));
      assert n[i].1 == o[i].1;
    }
  }

  /** Checking a weekday box keeps the availability object normalised: the seven weekdays, in order. */
  lemma ChangeKeepsWeekdays(p: ProfileForm, day: string, checked: bool)
    requires Keys(p.availability) == Days && UniqueKeys(p.availability) && day in Days
    ensures Keys(ChangeAvailability(p, day, checked).availability) == Days
  {
  }
}
