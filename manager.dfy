/** The object registry of src/Manager.js: registered game objects, the
    sweep that drops dead ones on every update, collision callbacks keyed by
    body pairs, and the pair key itself. */
module Manager {
  /** Whether an object has a boolean `alive` property, and its value. */
  datatype Liveness = NoFlag | Flag(value: bool)

  /** A registered game object. The model only keeps what `update` looks at:
      its `alive` property and whether it has an `update` method. */
  class GameObject {
    var alive: Liveness
    const hasUpdate: bool

    constructor (alive: Liveness, hasUpdate: bool)
      ensures this.alive == alive && this.hasUpdate == hasUpdate
    {
      this.alive := alive;
      this.hasUpdate := hasUpdate;
    }
  }

  /** `typeof obj.alive === "boolean" && !obj.alive`. */
  predicate Dead(o: GameObject)
    reads o
  {
    o.alive == Flag(false)
  }

  /** A callback handed to `onCollision` or `onPartlyCollision`; the model
      only tells callbacks apart. */
  datatype Callback = Callback(id: nat)

  /** The argument of `register` and `unregister`: one object or an array. */
  datatype Objects = One(obj: GameObject) | Many(objs: seq<GameObject>)

  /** The objects an argument names. */
  function Named(arg: Objects): (s: seq<GameObject>)
    ensures arg.One? ==> s == [arg.obj]
    ensures arg.Many? ==> s == arg.objs
  {
    match arg
    case One(o) => [o]
    case Many(os) => os
  }

  /** The objects an argument names, as a set. */
  function Targets(arg: Objects): (t: set<GameObject>)
    ensures arg.One? ==> t == {arg.obj}
    ensures forall i :: 0 <= i < |Named(arg)| ==> Named(arg)[i] in t
    ensures forall x | x in t :: x in Named(arg)
  {
    SetOf(Named(arg))
  }

  function SetOf(s: seq<GameObject>): (t: set<GameObject>)
    ensures forall i :: 0 <= i < |s| ==> s[i] in t
    ensures forall x | x in t :: x in s
    decreases |s|
  {
    if s == [] then {} else SetOf(s[..|s| - 1]) + {s[|s| - 1]}
  }

  /** The entries of `s` that are not in `gone`, in their order. */
  function Without(s: seq<GameObject>, gone: set<GameObject>): (r: seq<GameObject>)
    ensures |r| <= |s|
    ensures forall i :: 0 <= i < |r| ==> r[i] in s && r[i] !in gone
    ensures forall i :: 0 <= i < |s| && s[i] !in gone ==> s[i] in r
    decreases |s|
  {
    if s == [] then []
    else Without(s[..|s| - 1], gone) + (if s[|s| - 1] in gone then [] else [s[|s| - 1]])
  }

  lemma {:induction false} WithoutConcat(a: seq<GameObject>, b: seq<GameObject>, gone: set<GameObject>)
    ensures Without(a + b, gone) == Without(a, gone) + Without(b, gone)
    decreases |b|
  {
    if b == [] {
      assert a + b == a;
    } else {
      assert (a + b)[..|a + b| - 1] == a + b[..|b| - 1];
      WithoutConcat(a, b[..|b| - 1], gone);
    }
  }

  /** Removing objects that are not there changes nothing. */
  lemma {:induction false} WithoutAbsent(s: seq<GameObject>, gone: set<GameObject>)
    requires forall i :: 0 <= i < |s| ==> s[i] !in gone
    ensures Without(s, gone) == s
    decreases |s|
  {
    if s != [] {
      WithoutAbsent(s[..|s| - 1], gone);
      assert s[..|s| - 1] + [s[|s| - 1]] == s;
    }
  }

  /** Two removals in a row are one removal of both sets. */
  lemma {:induction false} WithoutTwice(s: seq<GameObject>, a: set<GameObject>, b: set<GameObject>)
    ensures Without(Without(s, a), b) == Without(s, a + b)
    decreases |s|
  {
    if s != [] {
      var init := s[..|s| - 1];
      var last := s[|s| - 1];
      WithoutTwice(init, a, b);
      var tail := if last in a then [] else [last];
      WithoutConcat(Without(init, a), tail, b);
      if last !in a {
        assert Without(tail, b) == Without([], b) + (if last in b then [] else [last]);
      }
    }
  }

  /** Unregistering an object right after registering it restores the
      list, when it was not registered before. */
  lemma RegisterUnregisterRoundTrip(s: seq<GameObject>, o: GameObject)
    requires o !in s
    ensures Without(s + [o], {o}) == s
  {
    WithoutConcat(s, [o], {o});
    WithoutAbsent(s, {o});
    assert Without([o], {o}) == Without([], {o}) + [];
  }

  /** The dead objects of `s`. */
  function DeadAmong(s: seq<GameObject>): (dead: set<GameObject>)
    reads s
    ensures forall x | x in dead :: x in s && Dead(x)
    ensures forall i :: 0 <= i < |s| && Dead(s[i]) ==> s[i] in dead
    decreases |s|
  {
    if s == [] then {}
    else DeadAmong(s[..|s| - 1]) + (if Dead(s[|s| - 1]) then {s[|s| - 1]} else {})
  }

  /** The objects of `s` whose `update` the sweep calls: those with an
      `update` method that are not dead, in order. */
  function Updated(s: seq<GameObject>): (r: seq<GameObject>)
    reads s
    ensures forall i :: 0 <= i < |r| ==> r[i] in s && r[i].hasUpdate && !Dead(r[i])
    ensures forall i :: 0 <= i < |s| && s[i].hasUpdate && !Dead(s[i]) ==> s[i] in r
    decreases |s|
  {
    if s == [] then []
    else
      var last := s[|s| - 1];
      Updated(s[..|s| - 1]) + (if !Dead(last) && last.hasUpdate then [last] else [])
  }

  /** The sweep's update list splits over concatenation, so it keeps the
      objects' order and multiplicity. */
  lemma {:induction false} UpdatedConcat(a: seq<GameObject>, b: seq<GameObject>)
    ensures Updated(a + b) == Updated(a) + Updated(b)
    decreases |b|
  {
    if b == [] {
      assert a + b == a;
    } else {
      assert (a + b)[..|a + b| - 1] == a + b[..|b| - 1];
      UpdatedConcat(a, b[..|b| - 1]);
    }
  }

  /** When every object is live and has `update`, each is updated, in order. */
  lemma {:induction false} UpdatedAllLive(s: seq<GameObject>)
    requires forall i :: 0 <= i < |s| ==> s[i].hasUpdate && !Dead(s[i])
    ensures Updated(s) == s
    decreases |s|
  {
    if s != [] {
      UpdatedAllLive(s[..|s| - 1]);
    }
  }

  /** The key `getPairKey` builds for two body ids: the two ids sorted as
      strings, smaller first, joined by `_`. */
  function PairKey(idA: nat, idB: nat): (key: string)
    ensures var a, b := DecimalString(idA), DecimalString(idB);
      || (key == a + "_" + b && !LexLess(b, a))
      || (key == b + "_" + a && !LexLess(a, b))
  {
    var a, b := DecimalString(idA), DecimalString(idB);
    LexLessAsymmetric(a, b);
    if LexLess(b, a) then b + "_" + a else a + "_" + b
  }

  /** A number as JavaScript writes it in base ten: a single digit exactly
      for the numbers below ten. */
  function DecimalString(n: nat): (s: string)
    ensures |s| > 0 && (|s| == 1 <==> n < 10)
    ensures forall i :: 0 <= i < |s| ==> '0' <= s[i] <= '9'
  {
    if n < 10 then [Digit(n)] else DecimalString(n / 10) + [Digit(n % 10)]
  }

  function Digit(d: nat): (c: char)
    requires d < 10
    ensures '0' <= c <= '9' && c as int - '0' as int == d
  {
    ('0' as int + d) as char
  }

  /** Different numbers are written differently. */
  lemma {:induction false} DecimalStringInjective(n: nat, m: nat)
    requires DecimalString(n) == DecimalString(m)
    ensures n == m
    decreases n
  {
    var s := DecimalString(n);
    if 10 <= n {
      assert DecimalString(n / 10) == s[..|s| - 1] == DecimalString(m / 10);
      DecimalStringInjective(n / 10, m / 10);
    }
  }

  /** Joined at different places, the separator meets a digit. */
  lemma SeparatorMismatch(x: string, y: string, z: string, w: string)
    requires |x| < |z| && forall i :: 0 <= i < |z| ==> '0' <= z[i] <= '9'
    ensures x + "_" + y != z + "_" + w
  {
    assert (x + "_" + y)[|x|] == '_';
    assert (z + "_" + w)[|x|] == z[|x|];
  }

  /** A key splits at its `_` back into the two strings of digits it joins. */
  lemma SplitAtSeparator(x: string, y: string, z: string, w: string)
    requires forall i :: 0 <= i < |x| ==> '0' <= x[i] <= '9'
    requires forall i :: 0 <= i < |z| ==> '0' <= z[i] <= '9'
    requires x + "_" + y == z + "_" + w
    ensures x == z && y == w
  {
    var k := x + "_" + y;
    if |x| < |z| {
      SeparatorMismatch(x, y, z, w);
    } else if |z| < |x| {
      SeparatorMismatch(z, w, x, y);
    }
    assert x == k[..|x|] && z == k[..|z|];
    assert y == k[|x| + 1..] && w == k[|z| + 1..];
  }

  /** The key names the pair of ids: two pairs share a key exactly when
      they hold the same two ids. */
  lemma PairKeyUnique(idA: nat, idB: nat, idC: nat, idD: nat)
    requires PairKey(idA, idB) == PairKey(idC, idD)
    ensures (idA == idC && idB == idD) || (idA == idD && idB == idC)
  {
    var a, b := DecimalString(idA), DecimalString(idB);
    var c, d := DecimalString(idC), DecimalString(idD);
    var x, y := if LexLess(b, a) then b else a, if LexLess(b, a) then a else b;
    var z, w := if LexLess(d, c) then d else c, if LexLess(d, c) then c else d;
    SplitAtSeparator(x, y, z, w);
    if x == a && z == c {
      DecimalStringInjective(idA, idC);
      DecimalStringInjective(idB, idD);
    } else if x == a {
      DecimalStringInjective(idA, idD);
      DecimalStringInjective(idB, idC);
    } else if z == c {
      DecimalStringInjective(idB, idC);
      DecimalStringInjective(idA, idD);
    } else {
      DecimalStringInjective(idB, idD);
      DecimalStringInjective(idA, idC);
    }
  }

  /** The default order of `Array.prototype.sort`: strings compared code
      unit by code unit, a proper prefix first. */
  predicate LexLess(a: string, b: string)
    decreases |a|
  {
    if a == [] then b != []
    else if b == [] then false
    else a[0] < b[0] || (a[0] == b[0] && LexLess(a[1..], b[1..]))
  }

  lemma {:induction false} LexLessAsymmetric(a: string, b: string)
    ensures !(LexLess(a, b) && LexLess(b, a))
    decreases |a|
  {
    if a != [] && b != [] && a[0] == b[0] {
      LexLessAsymmetric(a[1..], b[1..]);
    }
  }

  lemma {:induction false} LexLessTotal(a: string, b: string)
    requires a != b
    ensures LexLess(a, b) || LexLess(b, a)
    decreases |a|
  {
    if a != [] && b != [] && a[0] == b[0] {
      assert a == [a[0]] + a[1..] && b == [b[0]] + b[1..];
      LexLessTotal(a[1..], b[1..]);
    }
  }

  /** The key does not depend on the order of the two bodies. */
  lemma PairKeySymmetric(idA: nat, idB: nat)
    ensures PairKey(idA, idB) == PairKey(idB, idA)
  {
    var a, b := DecimalString(idA), DecimalString(idB);
    LexLessAsymmetric(a, b);
    if a != b {
      LexLessTotal(a, b);
    }
  }

  class Manager {
    var objects: seq<GameObject>
    var collisionCallbacks: map<string, Callback>
    var partlyCollisionCallbacks: map<GameObject, (Callback, Callback)>

    constructor ()
      ensures objects == [] && collisionCallbacks == map[] && partlyCollisionCallbacks == map[]
    {
      objects := [];
      collisionCallbacks := map[];
      partlyCollisionCallbacks := map[];
    }

    /** `register(obj)`: appended at the end, an array element by element. */
    method Register(arg: Objects)
      modifies this`objects
      ensures objects == old(objects) + Named(arg)
    {
      match arg
      case Many(os) =>
        for i := 0 to |os|
          invariant objects == old(objects) + os[..i]
        {
          objects := objects + [os[i]];
        }
        assert os[..|os|] == os;
      case One(o) =>
        objects := objects + [o];
    }

    /** `unregister(obj)`: every entry identical to the object, or contained
        in the array, is filtered out. */
    method Unregister(arg: Objects)
      modifies this`objects
      ensures objects == Without(old(objects), Targets(arg))
    {
      objects := Without(objects, Targets(arg));
    }

    /** The sweep has walked the first `i` objects of `s`: the dead ones
        among them are gone from `objs` and `upd` lists the updated ones. */
    static predicate Swept(s: seq<GameObject>, i: nat, objs: seq<GameObject>, upd: seq<GameObject>)
      requires i <= |s|
      reads s
    {
      objs == Without(s, DeadAmong(s[..i])) && upd == Updated(s[..i])
    }

    /** One more object of the walk. */
    static lemma SweepStep(s: seq<GameObject>, i: nat, objs: seq<GameObject>, upd: seq<GameObject>)
      requires i < |s| && Swept(s, i, objs, upd)
      ensures Dead(s[i]) ==> Swept(s, i + 1, Without(objs, {s[i]}), upd)
      ensures !Dead(s[i]) && s[i].hasUpdate ==> Swept(s, i + 1, objs, upd + [s[i]])
      ensures !Dead(s[i]) && !s[i].hasUpdate ==> Swept(s, i + 1, objs, upd)
    {
      assert s[..i + 1][..i] == s[..i];
      assert s[..i + 1][i] == s[i];
      if Dead(s[i]) {
        assert DeadAmong(s[..i + 1]) == DeadAmong(s[..i]) + {s[i]};
        WithoutTwice(s, DeadAmong(s[..i]), {s[i]});
      } else {
        assert DeadAmong(s[..i + 1]) == DeadAmong(s[..i]);
        if s[i].hasUpdate {
          assert Updated(s[..i + 1]) == Updated(s[..i]) + [s[i]];
        } else {
          assert Updated(s[..i + 1]) == Updated(s[..i]);
        }
      }
    }

    /** At the start nothing has been swept; at the end only live objects
        remain. */
    static lemma SweepBounds(s: seq<GameObject>)
      ensures Swept(s, 0, s, [])
      ensures forall objs, upd :: Swept(s, |s|, objs, upd) ==>
        objs == Without(s, DeadAmong(s)) && upd == Updated(s)
      ensures forall o :: o in Without(s, DeadAmong(s)) ==> o in s && !Dead(o)
    {
      WithoutAbsent(s, {});
      assert s[..0] == [];
      assert s[..|s|] == s;
      var r := Without(s, DeadAmong(s));
      forall o | o in r
        ensures o in s && !Dead(o)
      {
        var i :| 0 <= i < |r| && r[i] == o;
      }
    }

    /** `update(renderer)`: walks the objects registered at the start; a dead
        one is unregistered, any other with an `update` method is updated.
        Returns the objects updated, in order. */
    method Update() returns (updated: seq<GameObject>)
      modifies this`objects
      ensures objects == Without(old(objects), DeadAmong(old(objects)))
      ensures updated == Updated(old(objects))
      ensures forall o :: o in objects ==> o in old(objects) && !Dead(o)
    {
      var snapshot := objects;
      updated := [];
      SweepBounds(snapshot);
      for i := 0 to |snapshot|
        invariant Swept(snapshot, i, objects, updated)
      {
        var obj := snapshot[i];
        SweepStep(snapshot, i, objects, updated);
        if Dead(obj) {
          Unregister(One(obj));
          continue;
        }
        if obj.hasUpdate {
          updated := updated + [obj];
        }
      }
    }

    /** `onCollision(pairKey, callback)`: replaces any callback under the key. */
    method OnCollision(pairKey: string, callback: Callback)
      modifies this`collisionCallbacks
      ensures collisionCallbacks == old(collisionCallbacks)[pairKey := callback]
    {
      collisionCallbacks := collisionCallbacks[pairKey := callback];
    }

    /** `onPartlyCollision(object, onStart, onEnd)`: replaces any pair of
        callbacks registered for the object. */
    method OnPartlyCollision(obj: GameObject, onStartCallback: Callback, onEndCallback: Callback)
      modifies this`partlyCollisionCallbacks
      ensures partlyCollisionCallbacks == old(partlyCollisionCallbacks)[obj := (onStartCallback, onEndCallback)]
    {
      partlyCollisionCallbacks := partlyCollisionCallbacks[obj := (onStartCallback, onEndCallback)];
    }
  }
}
