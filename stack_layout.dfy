/** The per-channel "used time" bookkeeping of a Stack (`StackLayoutManager.LayoutHelper`
    in pulsegen_client/runner/_layout.py). A stack without channels keeps one shared
    float; otherwise a table from channel to used time in which reading a missing
    channel inserts 0.0 (a `defaultdict(float)`). */
module StackLayout {
  import opened Common
  import opened Schedule

  datatype Durations = Shared(value: real) | PerChannel(table: map<int, real>)

  function InitialDurations(stackChannels: set<int>): (d: Durations)
    ensures stackChannels == {} <==> d.Shared?
    ensures d.Shared? ==> d.value == 0.0
    ensures d.PerChannel? ==> d.table == map[]
  {
    if stackChannels == {} then Shared(0.0) else PerChannel(map[])
  }

  /** The position in the child list of the k-th child visited: backwards stacks visit
      their children last to first. */
  function VisitIndex(direction: ArrangeDirection, n: nat, k: nat): (i: nat)
    requires k < n
    ensures i < n
    ensures direction == Forwards ==> i == k
    ensures direction == Backwards ==> i == n - 1 - k
  {
    if direction == Backwards then n - 1 - k else k
  }

  /** `arrange_time`: where a child starts, given the used time before it. */
  function ArrangeTime(direction: ArrangeDirection, used: real, childDuration: real, total: real): (t: real)
    ensures direction == Forwards ==> t == used
    ensures direction == Backwards ==> t + childDuration + used == total
  {
    if direction == Backwards then total - used - childDuration else used
  }

  /** A channel's entry in the table; a missing channel reads as 0.0. */
  function Used0(t: map<int, real>, c: int): real {
    if c in t then t[c] else 0.0
  }

  function UsedValues(t: map<int, real>, chs: set<int>): set<real> {
    set c | c in chs :: Used0(t, c)
  }

  /** `used_time(channels)`: the latest used time over the given channels (over all
      recorded channels for an empty set, which raises ValueError while none is
      recorded). */
  ghost function UsedTimeOf(d: Durations, chs: set<int>): (r: Result<real>)
  {
    match d
    case Shared(v) => Ok(v)
    case PerChannel(t) =>
      var over := if chs == {} then t.Keys else chs;
      if over == {} then
        assert t == map[];
        Err(ValueError)
      else
        assert UsedValues(t, over) != {} by {
          NonEmptyInts(over);
          var c :| c in over;
          assert Used0(t, c) in UsedValues(t, over);
        }
        Ok(SetMax(UsedValues(t, over)))
  }

  /** What `used_time` returns: ValueError exactly when no channel is asked for and none
      is recorded; otherwise the latest used time over the channels it reads. */
  lemma UsedTimeIsMax(d: Durations, chs: set<int>)
    ensures var r := UsedTimeOf(d, chs);
      (r.Err? <==> d.PerChannel? && chs == {} && d.table == map[]) &&
      (r.Err? ==> r.error == ValueError) &&
      (r.Ok? && d.PerChannel? && chs != {} ==> IsMaxOf(r.value, UsedValues(d.table, chs))) &&
      (r.Ok? && d.PerChannel? && chs == {} ==> IsMaxOf(r.value, UsedValues(d.table, d.table.Keys))) &&
      (d.Shared? ==> r == Ok(d.value))
  {
  }

  /** The table after `used_time(channels)` has read the given channels. */
  function AfterRead(d: Durations, chs: set<int>): (r: Durations)
  {
    match d
    case Shared(_) => d
    case PerChannel(t) => PerChannel(ReadAll(t, chs))
  }

  /** Reading leaves a shared value alone and gives every channel read, and every one
      already recorded, its recorded time or 0.0. */
  lemma AfterReadTable(d: Durations, chs: set<int>)
    ensures var r := AfterRead(d, chs);
      (d.Shared? ==> r == d) &&
      (d.PerChannel? ==> r.PerChannel? && r.table.Keys == d.table.Keys + chs) &&
      (d.PerChannel? ==> forall c :: c in r.table ==> r.table[c] == Used0(d.table, c))
  {
  }

  /** A table after reading the channels `s`. */
  function ReadAll(t: map<int, real>, s: set<int>): map<int, real> {
    map c | c in t.Keys + s :: Used0(t, c)
  }

  /** A table with the channels `s` overwritten by `v`. */
  function Overwrite(t: map<int, real>, s: set<int>, v: real): map<int, real> {
    map c | c in t.Keys + s :: if c in s then v else t[c]
  }

  lemma ReadAllEmpty(t: map<int, real>)
    ensures ReadAll(t, {}) == t
  {
  }

  lemma ReadAllStep(t: map<int, real>, s: set<int>, c: int)
    ensures c in ReadAll(t, s) ==> ReadAll(t, s + {c}) == ReadAll(t, s)
    ensures c !in ReadAll(t, s) ==> ReadAll(t, s + {c}) == ReadAll(t, s)[c := 0.0]
  {
  }

  lemma OverwriteEmpty(t: map<int, real>, v: real)
    ensures Overwrite(t, {}, v) == t
  {
  }

  lemma OverwriteStep(t: map<int, real>, s: set<int>, c: int, v: real)
    ensures Overwrite(t, s + {c}, v) == Overwrite(t, s, v)[c := v]
  {
  }

  /** One read of `used_time`'s generator: the running maximum and the table after it. */
  lemma ReadMaxStep(t: map<int, real>, seen: set<int>, c: int, m: real, table: map<int, real>)
    requires table == ReadAll(t, seen) && IsMaxOf(m, UsedValues(t, seen))
    ensures var table' := if c in table then table else table[c := 0.0];
      table' == ReadAll(t, seen + {c}) && table'[c] == Used0(t, c) &&
      IsMaxOf(Max(m, table'[c]), UsedValues(t, seen + {c}))
  {
    ReadAllStep(t, seen, c);
    UsedValuesStep(t, seen, c);
    MaxInsert(m, UsedValues(t, seen), Used0(t, c));
  }

  lemma UsedValuesStep(t: map<int, real>, s: set<int>, c: int)
    ensures UsedValues(t, s + {c}) == UsedValues(t, s) + {Used0(t, c)}
  {
  }

  /** The channels `update_used` writes: the given ones, or all stack channels. */
  function Target(chs: set<int>, stackChannels: set<int>): set<int> {
    if chs == {} then stackChannels else chs
  }

  /** `update_used(channels, duration)`: every targeted channel (all stack channels when
      the set is empty) now holds `duration`; every other channel is unchanged. */
  function UpdatedUsed(d: Durations, chs: set<int>, stackChannels: set<int>, duration: real): (r: Durations)
  {
    match d
    case Shared(_) => Shared(duration)
    case PerChannel(t) =>
      PerChannel(Overwrite(t, Target(chs, stackChannels), duration))
  }

  /** `update_used` sets every targeted channel to the duration and leaves the others. */
  lemma UpdatedUsedTable(d: Durations, chs: set<int>, stackChannels: set<int>, duration: real)
    ensures var r := UpdatedUsed(d, chs, stackChannels, duration);
      (d.Shared? ==> r == Shared(duration)) &&
      (d.PerChannel? ==> r.PerChannel? && r.table.Keys == d.table.Keys + Target(chs, stackChannels)) &&
      (d.PerChannel? ==> forall c :: c in Target(chs, stackChannels) ==> r.table[c] == duration) &&
      (d.PerChannel? ==> forall c :: c in d.table && c !in Target(chs, stackChannels) ==> r.table[c] == d.table[c])
  {
  }

  /** `total_time()`: the latest used time over all channels. */
  ghost function TotalTimeOf(d: Durations): (r: Result<real>)
    ensures r.Err? <==> d.PerChannel? && d.table == map[]
    ensures r.Err? ==> r.error == ValueError
    ensures r.Ok? && d.PerChannel? ==> IsMaxOf(r.value, UsedValues(d.table, d.table.Keys))
    ensures d.Shared? ==> r == Ok(d.value)
  {
    UsedTimeIsMax(d, {});
    UsedTimeOf(d, {})
  }

  /** One child placed: read its used time, then record that time plus its duration. */
  ghost function StackStep(d: Durations, stackChannels: set<int>, chs: set<int>, duration: real): Result<(real, Durations)> {
    match UsedTimeOf(d, chs)
    case Err(e) => Err(e)
    case Ok(u) => Ok((u, UpdatedUsed(AfterRead(d, chs), chs, stackChannels, duration + u)))
  }

  /** The bookkeeping over children visited in order with the given channel sets and
      desired durations: the used time each child started from, and the final table. */
  ghost function FoldStack(stackChannels: set<int>, chans: seq<set<int>>, durations: seq<real>): (r: Result<(seq<real>, Durations)>)
    requires |chans| == |durations|
    ensures r.Ok? ==> |r.value.0| == |chans|
    decreases |chans|
  {
    if chans == [] then Ok(([], InitialDurations(stackChannels)))
    else
      var n := |chans| - 1;
      match FoldStack(stackChannels, chans[..n], durations[..n])
      case Err(e) => Err(e)
      case Ok((used, d)) =>
        match StackStep(d, stackChannels, chans[n], durations[n])
        case Err(e) => Err(e)
        case Ok((u, d1)) => Ok((used + [u], d1))
  }

  /** The Stack bookkeeping property: after placing a child, each channel it occupies
      holds the latest prior used time over those channels plus the child's duration.
      A child naming no channel starts after the latest time recorded on any channel
      and then occupies every stack channel. Every other channel keeps its value. */
  lemma StackStepEffect(d: Durations, stackChannels: set<int>, chs: set<int>, duration: real)
    requires d.PerChannel?
    ensures var r := StackStep(d, stackChannels, chs, duration);
      chs != {} ==>
        r.Ok? && IsMaxOf(r.value.0, UsedValues(d.table, chs)) &&
        (forall c :: c in chs ==> r.value.1.table[c] == r.value.0 + duration) &&
        (forall c :: c in d.table && c !in chs ==> r.value.1.table[c] == d.table[c])
    ensures var r := StackStep(d, stackChannels, chs, duration);
      chs == {} && d.table != map[] ==>
        r.Ok? && IsMaxOf(r.value.0, UsedValues(d.table, d.table.Keys)) &&
        (forall c :: c in stackChannels ==> r.value.1.table[c] == r.value.0 + duration) &&
        (forall c :: c in d.table && c !in stackChannels ==> r.value.1.table[c] == d.table[c])
  {
  }

  /** Only an empty-channel child visited while no channel has a recorded time raises. */
  lemma StackStepError(d: Durations, stackChannels: set<int>, chs: set<int>, duration: real)
    ensures StackStep(d, stackChannels, chs, duration).Err? <==> d.PerChannel? && d.table == map[] && chs == {}
  {
  }

  /** The recorded channels stay within the stack's channels when every child's channels
      do. */
  lemma {:induction false} FoldStackKeys(stackChannels: set<int>, chans: seq<set<int>>, durations: seq<real>)
    requires |chans| == |durations|
    requires forall i :: 0 <= i < |chans| ==> chans[i] <= stackChannels
    requires FoldStack(stackChannels, chans, durations).Ok?
    ensures var d := FoldStack(stackChannels, chans, durations).value.1;
      d.PerChannel? ==> d.table.Keys <= stackChannels
    decreases |chans|
  {
    if chans != [] {
      var n := |chans| - 1;
      FoldStackKeys(stackChannels, chans[..n], durations[..n]);
    }
  }

  /** One child on a stack whose only channel is `c`. */
  lemma SingleChannelStep(c: int, t: map<int, real>, x: real)
    requires t.Keys <= {c}
    ensures StackStep(PerChannel(t), {c}, {c}, x) == Ok((Used0(t, c), PerChannel(map[c := x + Used0(t, c)])))
  {
    var u := Used0(t, c);
    assert UsedValues(t, {c}) == {u};
    UsedTimeIsMax(PerChannel(t), {c});
    MaxUnique(u, UsedTimeOf(PerChannel(t), {c}).value, UsedValues(t, {c}));
    assert AfterRead(PerChannel(t), {c}).table == map[c := u];
    assert UpdatedUsed(PerChannel(map[c := u]), {c}, {c}, x + u).table == map[c := x + u];
  }

  /** On a single channel the stack packs its children one after another: each starts
      where the previous ones end and the total is the sum of the durations. */
  lemma {:induction false} SingleChannelPacking(c: int, chans: seq<set<int>>, durations: seq<real>)
    requires |chans| == |durations|
    requires forall i :: 0 <= i < |chans| ==> chans[i] == {c}
    ensures chans != [] ==>
      FoldStack({c}, chans, durations) == Ok((PrefixSums(durations), PerChannel(map[c := Sum(durations)])))
    decreases |chans|
  {
    var n := |chans| - 1;
    if n == 0 {
      assert chans[..0] == [] && durations[..0] == [];
      SingleChannelStep(c, map[], durations[0]);
      assert Sum(durations) == Sum(durations[..0]) + durations[0];
    } else if n > 0 {
      SingleChannelPacking(c, chans[..n], durations[..n]);
      assert forall i :: 0 <= i < n ==> chans[..n][i] == chans[i];
      SingleChannelStep(c, map[c := Sum(durations[..n])], durations[n]);
      assert Sum(durations) == durations[n] + Sum(durations[..n]);
    }
  }

  // ------------------------------------------------------------- the helper object

  /** `LayoutHelper`: the bookkeeping object a Stack creates for each pass. */
  class LayoutHelper {
    const channels: set<int>
    const direction: ArrangeDirection
    var durations: Durations

    constructor (stackChannels: set<int>, direction0: ArrangeDirection)
      ensures channels == stackChannels && direction == direction0
      ensures durations == InitialDurations(stackChannels)
    {
      channels := stackChannels;
      direction := direction0;
      durations := if stackChannels == {} then Shared(0.0) else PerChannel(map[]);
    }

    /** The first read of `used_time`'s generator. */
    static method ReadFirst(t: map<int, real>, c: int) returns (m: real, table: map<int, real>)
      ensures table == ReadAll(t, {c}) && IsMaxOf(m, UsedValues(t, {c}))
    {
      ReadAllStep(t, {}, c);
      ReadAllEmpty(t);
      UsedValuesStep(t, {}, c);
      assert {} + {c} == {c};
      table := if c in t then t else t[c := 0.0];
      m := table[c];
    }

    /** A further read: a missing channel is inserted with 0.0 and the running maximum
        takes in its value. */
    static method ReadNext(t: map<int, real>, ghost seen: set<int>, c: int, m: real, table: map<int, real>)
      returns (m': real, table': map<int, real>)
      requires table == ReadAll(t, seen) && IsMaxOf(m, UsedValues(t, seen))
      ensures table' == ReadAll(t, seen + {c}) && IsMaxOf(m', UsedValues(t, seen + {c}))
    {
      ReadMaxStep(t, seen, c, m, table);
      table' := table;
      if c !in table' {
        table' := table'[c := 0.0];
      }
      m' := Max(m, table'[c]);
    }

    /** The maximum over `chs` of a table read as a `defaultdict`: each read inserts a
        missing channel with 0.0. */
    static method ReadMax(t: map<int, real>, chs: set<int>) returns (m: real, table: map<int, real>)
      requires chs != {}
      ensures IsMaxOf(m, UsedValues(t, chs))
      ensures table == ReadAll(t, chs)
    {
      NonEmptyInts(chs);
      var c0 :| c0 in chs;
      ghost var seen: set<int> := {c0};
      m, table := ReadFirst(t, c0);
      var rest := chs - {c0};
      assert seen == chs - rest;
      while rest != {}
        invariant rest <= chs && seen == chs - rest
        invariant table == ReadAll(t, seen)
        invariant IsMaxOf(m, UsedValues(t, seen))
        decreases rest
      {
        NonEmptyInts(rest);
        var c :| c in rest;
        m, table := ReadNext(t, seen, c, m, table);
        rest := rest - {c};
        seen := seen + {c};
      }
      assert seen == chs;
    }

    /** `used_time(channels)`. */
    method UsedTime(chs: set<int>) returns (r: Result<real>)
      modifies this
      ensures r == UsedTimeOf(old(durations), chs)
      ensures durations == AfterRead(old(durations), chs)
    {
      var d := durations;
      if d.Shared? {
        r := Ok(d.value);
        return;
      }
      var over := if chs == {} then d.table.Keys else chs;
      if over == {} {
        assert d.table == map[];
        r := Err(ValueError);
        return;
      }
      var m, table := ReadMax(d.table, over);
      UsedTimeIsMax(d, chs);
      MaxUnique(m, UsedTimeOf(d, chs).value, UsedValues(d.table, over));
      r := Ok(m);
      durations := PerChannel(table);
    }

    /** `total_time()`. */
    method TotalTime() returns (r: Result<real>)
      ensures r == TotalTimeOf(durations)
    {
      var d := durations;
      if d.Shared? {
        r := Ok(d.value);
      } else if d.table == map[] {
        r := Err(ValueError);
      } else {
        assert d.table.Keys != {};
        var m, _ := ReadMax(d.table, d.table.Keys);
        MaxUnique(m, TotalTimeOf(d).value, UsedValues(d.table, d.table.Keys));
        r := Ok(m);
      }
    }

    /** Writes the duration into each target channel, one channel per iteration. */
    static method OverwriteAll(t: map<int, real>, target: set<int>, duration: real) returns (table: map<int, real>)
      ensures table == Overwrite(t, target, duration)
    {
      var rest := target;
      ghost var done: set<int> := {};
      table := t;
      OverwriteEmpty(t, duration);
      while rest != {}
        invariant rest <= target && done == target - rest
        invariant table == Overwrite(t, done, duration)
        decreases rest
      {
        NonEmptyInts(rest);
        var c :| c in rest;
        OverwriteStep(t, done, c, duration);
        table := table[c := duration];
        rest := rest - {c};
        done := done + {c};
      }
      assert done == target;
    }

    /** `update_used(channels, duration)`. */
    method UpdateUsed(chs: set<int>, duration: real)
      modifies this
      ensures durations == UpdatedUsed(old(durations), chs, channels, duration)
    {
      var d := durations;
      if d.Shared? {
        durations := Shared(duration);
        return;
      }
      var target := if chs == {} then channels else chs;
      var table := OverwriteAll(d.table, target, duration);
      durations := PerChannel(table);
    }
  }
}
