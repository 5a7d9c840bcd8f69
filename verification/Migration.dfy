/** The versioned migration runner: pending migrations upwards, rollback downwards, and the append-only
    history that decides which versions count as applied. */
module Migration {
  import opened Common

  // ----- versions are strings, compared lexicographically

  predicate Less(a: string, b: string) {
    b != "" && (a == "" || a[0] < b[0] || (a[0] == b[0] && Less(a[1..], b[1..])))
  }

  lemma {:induction false} LessIsTotal(a: string, b: string)
    ensures a == b || Less(a, b) || Less(b, a)
  {
    if a != "" && b != "" && a[0] == b[0] {
      LessIsTotal(a[1..], b[1..]);
      assert a == [a[0]] + a[1..] && b == [b[0]] + b[1..];
    }
  }

  lemma {:induction false} LessIsTransitive(a: string, b: string, c: string)
    requires Less(a, b) && Less(b, c)
    ensures Less(a, c)
  {
    if a != "" && a[0] == b[0] && b[0] == c[0] {
      LessIsTransitive(a[1..], b[1..], c[1..]);
    }
  }

  lemma {:induction false} LessIsStrict(a: string)
    ensures !Less(a, a)
  {
    if a != "" {
      LessIsStrict(a[1..]);
    }
  }

  /** The strings agree up to place `k`, and there the first has the smaller character. */
  ghost predicate SmallerAt(a: string, b: string, k: nat) {
    k < |a| && k < |b| && a[k] < b[k] && a[..k] == b[..k]
  }

  lemma {:induction false} SmallerIsLess(a: string, b: string, k: nat)
    requires SmallerAt(a, b, k)
    ensures Less(a, b)
  {
    if k > 0 {
      assert a[0] == a[..k][0] && b[0] == b[..k][0];
      assert a[1..][..k - 1] == a[..k][1..] && b[1..][..k - 1] == b[..k][1..];
      SmallerIsLess(a[1..], b[1..], k - 1);
    }
  }

  lemma {:induction false} PrefixIsLess(a: string, b: string)
    requires a < b
    ensures Less(a, b)
  {
    if a != "" {
      assert a[0] == b[0] && a[1..] < b[1..];
      PrefixIsLess(a[1..], b[1..]);
    }
  }

  lemma {:induction false} LessHasPlace(a: string, b: string)
    requires Less(a, b)
    ensures a < b || exists k: nat :: SmallerAt(a, b, k)
  {
    if a != "" {
      if a[0] < b[0] {
        assert SmallerAt(a, b, 0);
      } else {
        LessHasPlace(a[1..], b[1..]);
        assert a == [a[0]] + a[1..] && b == [b[0]] + b[1..];
        if k: nat :| SmallerAt(a[1..], b[1..], k) {
          assert a[..k + 1] == [a[0]] + a[1..][..k] && b[..k + 1] == [b[0]] + b[1..][..k];
          assert SmallerAt(a, b, k + 1);
        }
      }
    }
  }

  /** One string is less than another exactly when it is a proper prefix of it, or has the smaller character at the
      first place where they differ. */
  lemma LessIsLexicographic(a: string, b: string)
    ensures Less(a, b) <==> a < b || exists k: nat :: SmallerAt(a, b, k)
  {
    if Less(a, b) {
      LessHasPlace(a, b);
    }
    if a < b {
      PrefixIsLess(a, b);
    }
    if k: nat :| SmallerAt(a, b, k) {
      SmallerIsLess(a, b, k);
    }
  }

  ghost predicate Ascending(vs: seq<string>) {
    forall i, j :: 0 <= i < j < |vs| ==> Less(vs[i], vs[j])
  }

  function Insert(v: string, vs: seq<string>): seq<string> {
    if vs == [] || Less(v, vs[0]) then [v] + vs else [vs[0]] + Insert(v, vs[1..])
  }

  /** The keys of the registry in sorted order. */
  function Sorted(keys: seq<string>): seq<string> {
    if keys == [] then [] else Insert(keys[0], Sorted(keys[1..]))
  }

  lemma {:induction false} InsertSorts(v: string, vs: seq<string>)
    requires Ascending(vs) && v !in vs
    ensures Ascending(Insert(v, vs))
    ensures forall x :: x in Insert(v, vs) <==> x == v || x in vs
  {
    if vs == [] {
    } else if Less(v, vs[0]) {
      forall i | 0 <= i < |vs|
        ensures Less(v, vs[i])
      {
        if i > 0 {
          LessIsTransitive(v, vs[0], vs[i]);
        }
      }
    } else {
      LessIsTotal(v, vs[0]);
      InsertSorts(v, vs[1..]);
      assert vs == [vs[0]] + vs[1..];
      var rest := Insert(v, vs[1..]);
      forall i | 0 <= i < |rest|
        ensures Less(vs[0], rest[i])
      {
        assert rest[i] in rest;
        assert rest[i] == v || rest[i] in vs[1..];
      }
    }
  }

  lemma {:induction false} SortedSorts(keys: seq<string>)
    requires forall i, j :: 0 <= i < j < |keys| ==> keys[i] != keys[j]
    ensures Ascending(Sorted(keys))
    ensures forall x :: x in Sorted(keys) <==> x in keys
  {
    if keys != [] {
      assert keys == [keys[0]] + keys[1..];
      SortedSorts(keys[1..]);
      InsertSorts(keys[0], Sorted(keys[1..]));
    }
  }

  // ----- running migrations on data

  /** A function of the data returns `None` where the source throws. */
  datatype Step<!T> = Step(up: T -> Option<T>, down: Option<T -> Option<T>>, validate: Option<T -> bool>)

  predicate Accepts<T>(m: Step<T>, data: T) {
    m.validate.Some? ==> m.validate.value(data)
  }

  function UpOne<T>(m: Step<T>, data: T): Option<T> {
    if !Accepts(m, data) then None else
    var migrated :- m.up(data);
    :- Need(Accepts(m, migrated));
    Some(migrated)
  }

  function DownOne<T>(m: Step<T>, data: T): Option<T> {
    var down :- m.down;
    down(data)
  }

  predicate Known<T>(steps: map<string, Step<T>>, vs: seq<string>) {
    forall i :: 0 <= i < |vs| ==> vs[i] in steps
  }

  /** Applies the versions in order. */
  function UpAll<T>(steps: map<string, Step<T>>, vs: seq<string>, data: T): Option<T>
    requires Known(steps, vs)
  {
    if vs == [] then Some(data) else
      var n := |vs| - 1;
      var before :- UpAll(steps, vs[..n], data);
      UpOne(steps[vs[n]], before)
  }

  /** Rolls the versions back in the order given. */
  function DownAll<T>(steps: map<string, Step<T>>, vs: seq<string>, data: T): Option<T>
    requires Known(steps, vs)
  {
    if vs == [] then Some(data) else
      var n := |vs| - 1;
      var before :- DownAll(steps, vs[..n], data);
      DownOne(steps[vs[n]], before)
  }

  lemma {:induction false} UpPrefixSucceeds<T>(steps: map<string, Step<T>>, vs: seq<string>, data: T, k: nat)
    requires Known(steps, vs) && k <= |vs| && UpAll(steps, vs, data).Some?
    ensures UpAll(steps, vs[..k], data).Some?
  {
    if k == |vs| {
      assert vs[..k] == vs;
    } else {
      assert vs[..|vs| - 1][..k] == vs[..k];
      UpPrefixSucceeds(steps, vs[..|vs| - 1], data, k);
    }
  }

  /** Every migration of a successful run was validated on the data it got and on the data it made, and passed on
      exactly what its `up` returned. */
  lemma ValidatedThroughout<T>(steps: map<string, Step<T>>, vs: seq<string>, data: T, i: nat)
    requires Known(steps, vs) && i < |vs| && UpAll(steps, vs, data).Some?
    ensures UpAll(steps, vs[..i], data).Some? && UpAll(steps, vs[..i + 1], data).Some?
    ensures var m, before, after := steps[vs[i]], UpAll(steps, vs[..i], data).value,
        UpAll(steps, vs[..i + 1], data).value;
      && m.up(before) == Some(after)
      && (m.validate.Some? ==> m.validate.value(before) && m.validate.value(after))
  {
    UpPrefixSucceeds(steps, vs, data, i);
    UpPrefixSucceeds(steps, vs, data, i + 1);
    assert vs[..i + 1][..i] == vs[..i] && vs[..i + 1][i] == vs[i];
  }

  lemma {:induction false} UpPrefix<T>(steps: map<string, Step<T>>, vs: seq<string>, data: T, k: nat)
    requires Known(steps, vs) && k <= |vs| && UpAll(steps, vs[..k], data).None?
    ensures UpAll(steps, vs, data).None?
  {
    if k == |vs| {
      assert vs[..k] == vs;
    } else {
      assert vs[..|vs| - 1][..k] == vs[..k];
      UpPrefix(steps, vs[..|vs| - 1], data, k);
    }
  }

  lemma {:induction false} DownPrefix<T>(steps: map<string, Step<T>>, vs: seq<string>, data: T, k: nat)
    requires Known(steps, vs) && k <= |vs| && DownAll(steps, vs[..k], data).None?
    ensures DownAll(steps, vs, data).None?
  {
    if k == |vs| {
      assert vs[..k] == vs;
    } else {
      assert vs[..|vs| - 1][..k] == vs[..k];
      DownPrefix(steps, vs[..|vs| - 1], data, k);
    }
  }

  // ----- history

  datatype Direction = Up | Down
  datatype Status = Started | Success | Failed | RolledBack
  datatype Entry = Entry(version: string, direction: Direction, status: Status)

  predicate HasEntry(h: seq<Entry>, version: string, direction: Direction, status: Status) {
    Entry(version, direction, status) in h
  }

  /** Versions with a successful run upwards and no entry saying a run downwards succeeded. */
  predicate IsApplied(h: seq<Entry>, version: string) {
    HasEntry(h, version, Up, Success) && !HasEntry(h, version, Down, Success)
  }

  function Pending(h: seq<Entry>, vs: seq<string>): seq<string> {
    if vs == [] then [] else (if IsApplied(h, vs[0]) then [] else [vs[0]]) + Pending(h, vs[1..])
  }

  function Above(h: seq<Entry>, vs: seq<string>, target: string): seq<string> {
    if vs == [] then []
    else (if IsApplied(h, vs[0]) && Less(target, vs[0]) then [vs[0]] else []) + Above(h, vs[1..], target)
  }

  function Reversed(vs: seq<string>): seq<string> {
    if vs == [] then [] else Reversed(vs[1..]) + [vs[0]]
  }

  lemma {:induction false} PendingMembers(h: seq<Entry>, vs: seq<string>)
    ensures forall v :: v in Pending(h, vs) <==> v in vs && !IsApplied(h, v)
  {
    if vs != [] {
      PendingMembers(h, vs[1..]);
      assert vs == [vs[0]] + vs[1..];
    }
  }

  lemma {:induction false} AboveOnly(h: seq<Entry>, vs: seq<string>, target: string)
    ensures forall v :: v in Above(h, vs, target) <==> v in vs && IsApplied(h, v) && Less(target, v)
  {
    if vs != [] {
      AboveOnly(h, vs[1..], target);
      assert vs == [vs[0]] + vs[1..];
    }
  }

  lemma {:induction false} ReversedMembers(vs: seq<string>)
    ensures forall v :: v in Reversed(vs) <==> v in vs
  {
    if vs != [] {
      ReversedMembers(vs[1..]);
      assert vs == [vs[0]] + vs[1..];
    }
  }

  lemma {:induction false} AboveMembers(h: seq<Entry>, vs: seq<string>, target: string)
    ensures forall v :: v in Reversed(Above(h, vs, target)) <==> v in vs && IsApplied(h, v) && Less(target, v)
  {
    AboveOnly(h, vs, target);
    ReversedMembers(Above(h, vs, target));
  }

  lemma OneMore(vs: seq<string>, i: nat)
    requires i < |vs|
    ensures vs[..i + 1][..i] == vs[..i] && vs[..i + 1][i] == vs[i]
    ensures forall v :: v in vs[..i + 1] <==> v in vs[..i] || v == vs[i]
  {
    assert vs[..i + 1] == vs[..i] + [vs[i]];
  }

  lemma {:induction false} AllPending(h: seq<Entry>, vs: seq<string>)
    requires h == []
    ensures Pending(h, vs) == vs
  {
    if vs != [] {
      AllPending(h, vs[1..]);
    }
  }

  lemma {:induction false} NonePending(h: seq<Entry>, vs: seq<string>)
    requires forall v :: v in vs ==> IsApplied(h, v)
    ensures Pending(h, vs) == []
  {
    if vs != [] {
      assert vs[0] in vs;
      NonePending(h, vs[1..]);
    }
  }

  // ----- rollback undoes migration

  /** Each version's `down` undoes its `up`. */
  ghost predicate Invertible<T(!new)>(steps: map<string, Step<T>>, vs: seq<string>)
    requires Known(steps, vs)
  {
    forall i, x :: 0 <= i < |vs| && UpOne(steps[vs[i]], x).Some? ==>
      DownOne(steps[vs[i]], UpOne(steps[vs[i]], x).value) == Some(x)
  }

  lemma {:induction false} UpConcat<T>(steps: map<string, Step<T>>, xs: seq<string>, ys: seq<string>, data: T)
    requires Known(steps, xs) && Known(steps, ys)
    ensures Known(steps, xs + ys)
    ensures UpAll(steps, xs, data).None? ==> UpAll(steps, xs + ys, data).None?
    ensures UpAll(steps, xs, data).Some? ==>
      UpAll(steps, xs + ys, data) == UpAll(steps, ys, UpAll(steps, xs, data).value)
  {
    if ys == [] {
      assert xs + ys == xs;
    } else {
      var n := |ys| - 1;
      UpConcat(steps, xs, ys[..n], data);
      assert (xs + ys)[..|xs + ys| - 1] == xs + ys[..n];
    }
  }

  lemma KnownConcat<T>(steps: map<string, Step<T>>, xs: seq<string>, ys: seq<string>)
    requires Known(steps, xs) && Known(steps, ys)
    ensures Known(steps, xs + ys)
  {
  }

  lemma {:induction false} DownConcat<T>(steps: map<string, Step<T>>, xs: seq<string>, ys: seq<string>, data: T)
    requires Known(steps, xs) && Known(steps, ys) && DownAll(steps, xs, data).Some?
    ensures Known(steps, xs + ys)
    ensures DownAll(steps, xs + ys, data) == DownAll(steps, ys, DownAll(steps, xs, data).value)
  {
    KnownConcat(steps, xs, ys);
    if ys == [] {
      assert xs + ys == xs;
    } else {
      var n := |ys| - 1;
      DownConcat(steps, xs, ys[..n], data);
      assert (xs + ys)[..|xs + ys| - 1] == xs + ys[..n];
    }
  }

  lemma ReversedKnown<T>(steps: map<string, Step<T>>, vs: seq<string>)
    requires Known(steps, vs)
    ensures Known(steps, Reversed(vs))
  {
    ReversedMembers(vs);
    forall i | 0 <= i < |Reversed(vs)|
      ensures Reversed(vs)[i] in steps
    {
      assert Reversed(vs)[i] in Reversed(vs);
    }
  }

  lemma SingleStep<T>(steps: map<string, Step<T>>, v: string, data: T)
    requires v in steps
    ensures UpAll(steps, [v], data) == UpOne(steps[v], data)
    ensures DownAll(steps, [v], data) == DownOne(steps[v], data)
  {
    assert [v][..0] == [];
  }

  /** Going up through `vs` applies the first version, then the others. */
  lemma UpFirst<T>(steps: map<string, Step<T>>, vs: seq<string>, data: T)
    requires Known(steps, vs) && vs != [] && UpAll(steps, vs, data).Some?
    ensures Known(steps, vs[1..]) && UpOne(steps[vs[0]], data).Some?
    ensures UpAll(steps, vs, data) == UpAll(steps, vs[1..], UpOne(steps[vs[0]], data).value)
  {
    SingleStep(steps, vs[0], data);
    UpConcat(steps, [vs[0]], vs[1..], data);
    assert vs == [vs[0]] + vs[1..];
  }

  lemma InvertibleRest<T(!new)>(steps: map<string, Step<T>>, vs: seq<string>)
    requires Known(steps, vs) && Invertible(steps, vs) && vs != []
    ensures Known(steps, vs[1..]) && Invertible(steps, vs[1..])
  {
    assert forall i :: 0 <= i < |vs[1..]| ==> vs[1..][i] == vs[i + 1];
  }

  /** Going up through `vs` and down through its reverse gives the data back. */
  lemma {:induction false} DownUndoesUp<T(!new)>(steps: map<string, Step<T>>, vs: seq<string>, data: T)
    requires Known(steps, vs) && Invertible(steps, vs) && UpAll(steps, vs, data).Some?
    ensures Known(steps, Reversed(vs))
    ensures DownAll(steps, Reversed(vs), UpAll(steps, vs, data).value) == Some(data)
  {
    ReversedKnown(steps, vs);
    if vs != [] {
      UpFirst(steps, vs, data);
      InvertibleRest(steps, vs);
      var mid := UpOne(steps[vs[0]], data).value;
      DownUndoesUp(steps, vs[1..], mid);
      SingleStep(steps, vs[0], mid);
      DownConcat(steps, Reversed(vs[1..]), [vs[0]], UpAll(steps, vs, data).value);
    }
  }

  /** The registered versions not above the target. */
  function UpTo(vs: seq<string>, target: string): seq<string> {
    if vs == [] then [] else (if Less(target, vs[0]) then [] else [vs[0]]) + UpTo(vs[1..], target)
  }

  lemma {:induction false} NothingBelow(vs: seq<string>, target: string, low: string)
    requires Less(target, low) && forall i :: 0 <= i < |vs| ==> Less(low, vs[i])
    ensures UpTo(vs, target) == []
  {
    if vs != [] {
      LessIsTransitive(target, low, vs[0]);
      NothingBelow(vs[1..], target, low);
    }
  }

  /** When everything is applied, the versions to roll back are the sorted tail above the target. */
  lemma {:induction false} SplitAtTarget(h: seq<Entry>, vs: seq<string>, target: string)
    requires Ascending(vs) && forall v :: v in vs ==> IsApplied(h, v)
    ensures vs == UpTo(vs, target) + Above(h, vs, target)
  {
    if vs != [] {
      assert vs[0] in vs && vs == [vs[0]] + vs[1..];
      SplitAtTarget(h, vs[1..], target);
      if Less(target, vs[0]) {
        NothingBelow(vs[1..], target, vs[0]);
      }
    }
  }

  lemma InvertibleParts<T(!new)>(steps: map<string, Step<T>>, low: seq<string>, high: seq<string>)
    requires Known(steps, low + high) && Invertible(steps, low + high)
    ensures Known(steps, low)
    ensures Known(steps, high) && Invertible(steps, high)
  {
    var vs := low + high;
    assert forall i :: 0 <= i < |low| ==> low[i] == vs[i];
    assert forall i :: 0 <= i < |high| ==> high[i] == vs[|low| + i];
  }

  /** Rollback undoes migration: once every registered version has been applied to `data`, rolling the result
      back to `target` gives exactly what applying only the versions up to `target` would have given. */
  lemma RollbackUndoesMigration<T(!new)>(steps: map<string, Step<T>>, vs: seq<string>, h: seq<Entry>, data: T,
                                         target: string)
    requires Ascending(vs) && Known(steps, vs) && Invertible(steps, vs)
    requires forall v :: v in vs ==> IsApplied(h, v)
    requires UpAll(steps, vs, data).Some?
    ensures Known(steps, UpTo(vs, target)) && Known(steps, Reversed(Above(h, vs, target)))
    ensures UpAll(steps, UpTo(vs, target), data).Some?
    ensures DownAll(steps, Reversed(Above(h, vs, target)), UpAll(steps, vs, data).value)
         == UpAll(steps, UpTo(vs, target), data)
  {
    var low, high := UpTo(vs, target), Above(h, vs, target);
    SplitAtTarget(h, vs, target);
    InvertibleParts(steps, low, high);
    UpConcat(steps, low, high, data);
    DownUndoesUp(steps, high, UpAll(steps, low, data).value);
  }

  // ----- the runner

  /** The history grew, and exactly the versions of `vs` became applied. */
  ghost predicate MadeApplied(h: seq<Entry>, h': seq<Entry>, vs: seq<string>) {
    h <= h' && forall v :: IsApplied(h', v) <==> IsApplied(h, v) || v in vs
  }

  lemma MadeMore(h: seq<Entry>, h1: seq<Entry>, h2: seq<Entry>, vs: seq<string>, i: nat)
    requires i < |vs| && MadeApplied(h, h1, vs[..i]) && MadeApplied(h1, h2, [vs[i]])
    ensures MadeApplied(h, h2, vs[..i + 1])
  {
    OneMore(vs, i);
  }

  lemma AllMade(h: seq<Entry>, h': seq<Entry>, keys: seq<string>)
    requires forall i, j :: 0 <= i < j < |keys| ==> keys[i] != keys[j]
    requires MadeApplied(h, h', Pending(h, Sorted(keys)))
    ensures MadeApplied(h, h', keys)
  {
    SortedSorts(keys);
    PendingMembers(h, Sorted(keys));
  }

  /** Some of the versions ran and became applied, and the next one threw. */
  ghost predicate StoppedMidway<T>(steps: map<string, Step<T>>, vs: seq<string>, data: T, h: seq<Entry>, h': seq<Entry>)
    requires Known(steps, vs)
  {
    exists k :: 0 <= k < |vs|
                && UpAll(steps, vs[..k], data).Some? && UpAll(steps, vs[..k + 1], data).None?
                && MadeApplied(h, h', vs[..k])
  }

  lemma StopsHere<T>(steps: map<string, Step<T>>, vs: seq<string>, data: T, h: seq<Entry>, h1: seq<Entry>,
                     h2: seq<Entry>, k: nat)
    requires Known(steps, vs) && k < |vs| && UpAll(steps, vs[..k], data).Some?
    requires UpOne(steps[vs[k]], UpAll(steps, vs[..k], data).value).None?
    requires MadeApplied(h, h1, vs[..k]) && MadeApplied(h1, h2, [])
    ensures UpAll(steps, vs, data).None? && StoppedMidway(steps, vs, data, h, h2)
  {
    OneMore(vs, k);
    UpPrefix(steps, vs, data, k + 1);
    assert MadeApplied(h, h2, vs[..k]);
  }

  class Runner<T(!new)> {
    var steps: map<string, Step<T>>
    var order: seq<string>
    var history: seq<Entry>

    /** The registry keys, each once, in registration order; no run downwards is ever recorded as a success. */
    ghost predicate Valid()
      reads this
    {
      && (forall v :: v in order <==> v in steps)
      && (forall i, j :: 0 <= i < j < |order| ==> order[i] != order[j])
      && (forall v :: !HasEntry(history, v, Down, Success))
    }

    constructor ()
      ensures Valid() && steps == map[] && history == []
    {
      steps, order, history := map[], [], [];
    }

    method Register(version: string, m: Step<T>) returns (ok: bool)
      requires Valid()
      modifies this
      ensures Valid() && history == old(history)
      ensures ok <==> version !in old(steps)
      ensures steps == if ok then old(steps)[version := m] else old(steps)
    {
      if version in steps { return false; }
      steps, order := steps[version := m], order + [version];
      return true;
    }

    /** Appends an entry; only a successful run upwards makes a version applied. */
    method Audit(version: string, direction: Direction, status: Status)
      requires Valid() && !(direction == Down && status == Success)
      modifies this`history
      ensures Valid() && history == old(history) + [Entry(version, direction, status)]
      ensures forall v :: IsApplied(history, v) <==>
        IsApplied(old(history), v) || (v == version && direction == Up && status == Success)
    {
      ghost var before := history;
      history := history + [Entry(version, direction, status)];
      assert forall x :: x in history <==> x in before || x == Entry(version, direction, status);
      assert forall v :: HasEntry(history, v, Down, Success) ==> HasEntry(before, v, Down, Success);
    }

    /** One migration: validate, run, validate again, and record. */
    method RunUp(version: string, data: T) returns (r: Option<T>)
      requires Valid() && version in steps
      modifies this`history
      ensures Valid()
      ensures r == UpOne(steps[version], data)
      ensures MadeApplied(old(history), history, if r.Some? then [version] else [])
    {
      var m := steps[version];
      if !Accepts(m, data) { return None; }
      Audit(version, Up, Started);
      var migrated := m.up(data);
      if migrated.None? {
        Audit(version, Up, Failed);
        return None;
      }
      if !Accepts(m, migrated.value) { return None; }
      Audit(version, Up, Success);
      return migrated;
    }

    /** One rollback; what it records leaves the version applied. */
    method RunDown(version: string, data: T) returns (r: Option<T>)
      requires Valid() && version in steps
      modifies this`history
      ensures Valid()
      ensures r == DownOne(steps[version], data)
      ensures MadeApplied(old(history), history, [])
    {
      var m := steps[version];
      if m.down.None? { return None; }
      Audit(version, Down, Started);
      var back := m.down.value(data);
      if back.None? {
        Audit(version, Down, Failed);
        return None;
      }
      Audit(version, Down, RolledBack);
      return back;
    }

    lemma PendingKnown()
      requires Valid()
      ensures Known(steps, Pending(history, Sorted(order)))
      ensures forall v :: v in Pending(history, Sorted(order)) <==> v in steps && !IsApplied(history, v)
    {
      SortedSorts(order);
      PendingMembers(history, Sorted(order));
      var pending := Pending(history, Sorted(order));
      assert forall i :: 0 <= i < |pending| ==> pending[i] in pending;
    }

    /** Runs every pending migration in sorted order. Exactly the versions that ran become applied: all of the
        registry, or, when one throws, those before it. */
    method Migrate(data: T) returns (r: Option<T>)
      requires Valid()
      modifies this`history
      ensures Valid()
      ensures Known(steps, Pending(old(history), Sorted(order)))
      ensures r == UpAll(steps, Pending(old(history), Sorted(order)), data)
      ensures r.Some? ==> MadeApplied(old(history), history, order)
      ensures r.None? ==> StoppedMidway(steps, Pending(old(history), Sorted(order)), data, old(history), history)
      ensures Pending(old(history), Sorted(order)) == [] ==> history == old(history)
    {
      PendingKnown();
      var pending := Pending(history, Sorted(order));
      var current := data;
      for i := 0 to |pending|
        invariant Valid() && (i == 0 ==> history == old(history))
        invariant UpAll(steps, pending[..i], data) == Some(current)
        invariant MadeApplied(old(history), history, pending[..i])
      {
        ghost var before := history;
        OneMore(pending, i);
        var next := RunUp(pending[i], current);
        if next.None? {
          StopsHere(steps, pending, data, old(history), before, history, i);
          return None;
        }
        MadeMore(old(history), before, history, pending, i);
        current := next.value;
      }
      assert pending[..|pending|] == pending;
      AllMade(old(history), history, order);
      r := Some(current);
    }

    lemma AboveKnown(target: string)
      requires Valid()
      ensures Known(steps, Reversed(Above(history, Sorted(order), target)))
    {
      SortedSorts(order);
      AboveMembers(history, Sorted(order), target);
      var doomed := Reversed(Above(history, Sorted(order), target));
      assert forall i :: 0 <= i < |doomed| ==> doomed[i] in doomed;
    }

    /** Rolls back every applied version above the target, newest first. The entries it writes say
        `rolled_back`, so every version still counts as applied afterwards. */
    method Rollback(data: T, target: string) returns (r: Option<T>)
      requires Valid()
      modifies this`history
      ensures Valid()
      ensures Known(steps, Reversed(Above(old(history), Sorted(order), target)))
      ensures r == DownAll(steps, Reversed(Above(old(history), Sorted(order), target)), data)
      ensures MadeApplied(old(history), history, [])
    {
      AboveKnown(target);
      var doomed := Reversed(Above(history, Sorted(order), target));
      var current := data;
      for i := 0 to |doomed|
        invariant Valid() && MadeApplied(old(history), history, [])
        invariant DownAll(steps, doomed[..i], data) == Some(current)
      {
        assert doomed[..i + 1][..i] == doomed[..i];
        var back := RunDown(doomed[i], current);
        if back.None? {
          DownPrefix(steps, doomed, data, i + 1);
          return None;
        }
        current := back.value;
      }
      assert doomed[..|doomed|] == doomed;
      r := Some(current);
    }

    /** From an empty history with every validation passing and every `down` undoing its `up`: a migration
        followed by a rollback to `target` gives what applying only the versions up to `target` in sorted
        order gives, and a second migration in between would have changed nothing. */
    method MigrateThenRollback(data: T, target: string) returns (r: Option<T>)
      requires Valid() && history == []
      requires Known(steps, Sorted(order)) && Invertible(steps, Sorted(order))
      requires UpAll(steps, Sorted(order), data).Some?
      modifies this`history
      ensures Valid() && Known(steps, UpTo(Sorted(order), target))
      ensures r == UpAll(steps, UpTo(Sorted(order), target), data)
      ensures Pending(history, Sorted(order)) == []
    {
      SortedSorts(order);
      AllPending(history, Sorted(order));
      var migrated := Migrate(data);
      NonePending(history, Sorted(order));
      label Migrated:
      var again := Migrate(migrated.value);
      assert again == migrated && history == old@Migrated(history);
      RollbackUndoesMigration(steps, Sorted(order), history, data, target);
      r := Rollback(again.value, target);
      NonePending(history, Sorted(order));
    }
  }
}
