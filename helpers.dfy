/**
 * `merge_dicts`, which merges per-type description lists by extending the
 * first list object seen for each key in place, and `create_entities`,
 * which instantiates one entity per available description of each
 * requested type.
 */
module Helpers {
  import opened Wrappers
  import opened Dicts
  import opened Appliance
  import opened Descriptions

  // ------------------------------------------------------------ merge_dicts

  /** A Python list object: callers may hold several references to one. */
  class PyList<T> {
    var items: seq<T>

    constructor (xs: seq<T>)
      ensures items == xs
    {
      items := xs;
    }

    /** `self.extend(other)`; `other` may be this very list. */
    method Extend(other: PyList<T>)
      modifies this
      ensures items == old(items) + old(other.items)
    {
      items := items + other.items;
    }
  }

  /** The `(key, value)` pairs of `d.items()`, in insertion order. */
  function Items<O(==)>(d: Dict<O>): (ps: seq<(string, O)>)
    requires Valid(d)
    ensures |ps| == |d.keys|
    ensures forall j :: 0 <= j < |ps| ==> ps[j] == (d.keys[j], d.values[d.keys[j]])
  {
    seq(|d.keys|, j requires 0 <= j < |d.keys| => (d.keys[j], d.values[d.keys[j]]))
  }

  predicate AllValid<O(==)>(args: seq<Dict<O>>) {
    forall i :: 0 <= i < |args| ==> Valid(args[i])
  }

  /** The pairs of all argument dicts, argument after argument. */
  function Flatten<O(==)>(args: seq<Dict<O>>): (ps: seq<(string, O)>)
    requires AllValid(args)
    decreases |args|
  {
    if args == [] then [] else Flatten(args[..|args| - 1]) + Items(args[|args| - 1])
  }

  /**
   * The state of a merge: the output dict (key to list object) and the
   * contents of every list object.  The merge is specified over any type
   * `O` of object references; the method instantiates it with `PyList`.
   */
  datatype MergeState<O(==), T> = MergeState(out: Dict<O>, contents: map<O, seq<T>>)

  function ContentsOf<O(==), T>(c: map<O, seq<T>>, o: O): seq<T> {
    if o in c then c[o] else []
  }

  /** One iteration of the inner loop: a new key stores the value object
      itself; a known key extends its stored object by the value's
      current contents. */
  function Step<O(==), T>(st: MergeState<O, T>, p: (string, O)): (st': MergeState<O, T>)
    requires Valid(st.out)
    ensures Valid(st'.out)
  {
    if p.0 !in st.out.values then MergeState(Put(st.out, p.0, p.1), st.contents)
    else
      var target := st.out.values[p.0];
      MergeState(st.out, st.contents[target := ContentsOf(st.contents, target) + ContentsOf(st.contents, p.1)])
  }

  function Merge<O(==), T>(ps: seq<(string, O)>, init: map<O, seq<T>>): (st: MergeState<O, T>)
    ensures Valid(st.out)
    decreases |ps|
  {
    if ps == [] then MergeState(Empty(), init)
    else Step(Merge(ps[..|ps| - 1], init), ps[|ps| - 1])
  }

  lemma MergeSnoc<O, T>(ps: seq<(string, O)>, p: (string, O), init: map<O, seq<T>>)
    ensures Merge(ps + [p], init) == Step(Merge(ps, init), p)
  {
    assert (ps + [p])[..|ps|] == ps;
  }

  lemma MergePrefix<O, T>(ps: seq<(string, O)>, i: nat, init: map<O, seq<T>>)
    requires i < |ps|
    ensures Merge(ps[..i + 1], init) == Step(Merge(ps[..i], init), ps[i])
  {
    assert ps[..i + 1][..i] == ps[..i];
  }

  /** The objects of a pair sequence. */
  function ObjectSet<O>(ps: seq<(string, O)>): set<O> {
    set j | 0 <= j < |ps| :: ps[j].1
  }

  /** Every object the merge stores is one of the pairs' objects, and the
      contents map keeps its domain when it covers them all. */
  lemma {:induction false} MergeDomain<O, T>(ps: seq<(string, O)>, init: map<O, seq<T>>)
    ensures Merge(ps, init).out.values.Values <= ObjectSet(ps)
    ensures ObjectSet(ps) <= init.Keys ==> Merge(ps, init).contents.Keys == init.Keys
    decreases |ps|
  {
    if ps != [] {
      var pre := ps[..|ps| - 1];
      MergeDomain(pre, init);
      assert ps == pre + [ps[|ps| - 1]];
      assert ObjectSet(ps) == ObjectSet(pre) + {ps[|ps| - 1].1};
    }
  }

  /** The list objects an argument dict holds. */
  function ObjectsOf<T>(args: seq<Dict<PyList<T>>>): set<PyList<T>> {
    set i, k | 0 <= i < |args| && k in args[i].values :: args[i].values[k]
  }

  function ContentsMap<T>(objs: set<PyList<T>>): map<PyList<T>, seq<T>>
    reads objs
  {
    map o | o in objs :: o.items
  }

  lemma FlattenSnoc<O>(args: seq<Dict<O>>, i: nat)
    requires AllValid(args) && i < |args|
    ensures Flatten(args[..i + 1]) == Flatten(args[..i]) + Items(args[i])
  {
    assert args[..i + 1][..i] == args[..i];
  }

  lemma ItemsPrefix<O>(d: Dict<O>, j: nat)
    requires Valid(d) && j < |d.keys|
    ensures Items(d)[..j + 1] == Items(d)[..j] + [(d.keys[j], d.values[d.keys[j]])]
  {
    var ps := Items(d);
    assert ps[..j + 1] == ps[..j] + [ps[j]];
  }

  /** The list objects `objs` and the output dict `out` are the merge state
      `st`: the dict is its dict, and each object holds its contents. */
  ghost predicate Mirrors<T>(out: Dict<PyList<T>>, st: MergeState<PyList<T>, T>, objs: set<PyList<T>>)
    reads objs
  {
    && out == st.out && out.values.Values <= objs
    && forall o :: o in objs ==> o.items == ContentsOf(st.contents, o)
  }

  /** One iteration of the inner loop, on the list objects themselves. */
  method MergePair<T>(out: Dict<PyList<T>>, key: string, value: PyList<T>,
                      ghost st: MergeState<PyList<T>, T>, ghost objs: set<PyList<T>>)
    returns (out': Dict<PyList<T>>)
    requires Valid(st.out) && value in objs && Mirrors(out, st, objs)
    modifies objs
    ensures Mirrors(out', Step(st, (key, value)), objs)
  {
    if key !in out.values {
      out' := Put(out, key, value);
    } else {
      var target := out.values[key];
      assert target in out.values.Values;
      target.Extend(value);
      out' := out;
    }
  }

  /** The inner loop of `merge_dicts`: the pairs of one argument dict, merged
      into the output built from the earlier pairs `done`. */
  method MergeInto<T>(out: Dict<PyList<T>>, inDict: Dict<PyList<T>>, ghost done: seq<(string, PyList<T>)>,
                      ghost init: map<PyList<T>, seq<T>>, ghost objs: set<PyList<T>>)
    returns (out': Dict<PyList<T>>)
    requires Valid(inDict) && inDict.values.Values <= objs
    requires Mirrors(out, Merge(done, init), objs)
    modifies objs
    ensures Mirrors(out', Merge(done + Items(inDict), init), objs)
  {
    out' := out;
    ghost var all := Items(inDict);
    assert done + all[..0] == done;
    for j := 0 to |inDict.keys|
      invariant Mirrors(out', Merge(done + all[..j], init), objs)
    {
      out' := MergeEntry(out', inDict, j, done, init, objs);
    }
    assert all[..|all|] == all;
  }

  /** The body of the inner loop: the `j`-th pair of `inDict`. */
  method MergeEntry<T>(out: Dict<PyList<T>>, inDict: Dict<PyList<T>>, j: nat, ghost done: seq<(string, PyList<T>)>,
                       ghost init: map<PyList<T>, seq<T>>, ghost objs: set<PyList<T>>)
    returns (out': Dict<PyList<T>>)
    requires Valid(inDict) && j < |inDict.keys| && inDict.values.Values <= objs
    requires Mirrors(out, Merge(done + Items(inDict)[..j], init), objs)
    modifies objs
    ensures Mirrors(out', Merge(done + Items(inDict)[..j + 1], init), objs)
  {
    var key := inDict.keys[j];
    var value := inDict.values[key];
    assert value in inDict.values.Values;
    MergeItemsStep(done, inDict, j, init);
    out' := MergePair(out, key, value, Merge(done + Items(inDict)[..j], init), objs);
  }

  lemma MergeItemsStep<O, T>(done: seq<(string, O)>, d: Dict<O>, j: nat, init: map<O, seq<T>>)
    requires Valid(d) && j < |d.keys|
    ensures Merge(done + Items(d)[..j + 1], init)
         == Step(Merge(done + Items(d)[..j], init), (d.keys[j], d.values[d.keys[j]]))
  {
    ItemsPrefix(d, j);
    assert done + Items(d)[..j + 1] == (done + Items(d)[..j]) + [(d.keys[j], d.values[d.keys[j]])];
    MergeSnoc(done + Items(d)[..j], (d.keys[j], d.values[d.keys[j]]), init);
  }

  /**
   * `merge_dicts(*args)`.  The result maps each key to the first list
   * object given for it; that object is extended in place by every later
   * list for the key, so the callers' lists change.
   */
  method MergeDicts<T>(args: seq<Dict<PyList<T>>>) returns (out: Dict<PyList<T>>)
    requires AllValid(args)
    modifies ObjectsOf(args)
    ensures var st := Merge(Flatten(args), old(ContentsMap(ObjectsOf(args))));
      out == st.out && forall o :: o in ObjectsOf(args) ==> o.items == ContentsOf(st.contents, o)
  {
    ghost var objs := ObjectsOf(args);
    ghost var init := ContentsMap(objs);
    out := Empty();
    for i := 0 to |args|
      invariant Mirrors(out, Merge(Flatten(args[..i]), init), objs)
    {
      assert args[i].values.Values <= objs by {
        forall o | o in args[i].values.Values ensures o in objs {
          var k :| k in args[i].values && args[i].values[k] == o;
        }
      }
      FlattenSnoc(args, i);
      out := MergeInto(out, args[i], Flatten(args[..i]), init, objs);
    }
    assert args[..|args|] == args;
  }

  // ---------------------------------------------- what the merge computes

  /** The keys of a pair sequence, without repeats, in first-seen order. */
  function FirstSeen(keys: seq<string>): (r: seq<string>)
    decreases |keys|
  {
    if keys == [] then []
    else
      var r := FirstSeen(keys[..|keys| - 1]);
      if keys[|keys| - 1] in r then r else r + [keys[|keys| - 1]]
  }

  function KeysOf<O>(ps: seq<(string, O)>): (ks: seq<string>)
    ensures |ks| == |ps| && forall j :: 0 <= j < |ps| ==> ks[j] == ps[j].0
  {
    seq(|ps|, j requires 0 <= j < |ps| => ps[j].0)
  }

  /** The keys of a pair sequence, as a set. */
  function KeySet<O>(ps: seq<(string, O)>): set<string> {
    set j | 0 <= j < |ps| :: ps[j].0
  }

  lemma KeySetSnoc<O>(ps: seq<(string, O)>)
    requires ps != []
    ensures KeySet(ps) == KeySet(ps[..|ps| - 1]) + {ps[|ps| - 1].0}
  {
    var pre := ps[..|ps| - 1];
    forall k | k in KeySet(pre) ensures k in KeySet(ps) {
      var j :| 0 <= j < |pre| && pre[j].0 == k;
      assert ps[j].0 == k;
    }
    forall k | k in KeySet(ps) && k != ps[|ps| - 1].0 ensures k in KeySet(pre) {
      var j :| 0 <= j < |ps| && ps[j].0 == k;
      assert pre[j].0 == k;
    }
  }

  /** The keys of the merged dict are the keys of all inputs, each once, in
      the order they were first seen. */
  lemma {:induction false} MergeKeys<O, T>(ps: seq<(string, O)>, init: map<O, seq<T>>)
    ensures Merge(ps, init).out.keys == FirstSeen(KeysOf(ps))
    ensures Merge(ps, init).out.values.Keys == KeySet(ps)
    decreases |ps|
  {
    if ps != [] {
      var pre := ps[..|ps| - 1];
      MergeKeys(pre, init);
      assert KeysOf(ps)[..|ps| - 1] == KeysOf(pre);
      KeySetSnoc(ps);
    }
  }

  /** The object of the first pair with key `k`. */
  function FirstObject<O>(ps: seq<(string, O)>, k: string): (o: Option<O>)
    ensures o.None? <==> forall j :: 0 <= j < |ps| ==> ps[j].0 != k
    decreases |ps|
  {
    if ps == [] then None
    else if ps[0].0 == k then Some(ps[0].1)
    else FirstObject(ps[1..], k)
  }

  lemma {:induction false} FirstObjectSnoc<O>(ps: seq<(string, O)>, p: (string, O), k: string)
    ensures FirstObject(ps + [p], k) == if FirstObject(ps, k).Some? then FirstObject(ps, k)
                                        else if p.0 == k then Some(p.1) else None
    decreases |ps|
  {
    if ps != [] {
      assert (ps + [p])[1..] == ps[1..] + [p];
      FirstObjectSnoc(ps[1..], p, k);
    }
  }

  /** Each key of the merged dict holds the first list object given for it. */
  lemma {:induction false} MergeKeepsFirstObject<O, T>(ps: seq<(string, O)>, init: map<O, seq<T>>, k: string)
    ensures k in Merge(ps, init).out.values <==> FirstObject(ps, k).Some?
    ensures k in Merge(ps, init).out.values ==> Merge(ps, init).out.values[k] == FirstObject(ps, k).value
    decreases |ps|
  {
    if ps != [] {
      var pre := ps[..|ps| - 1];
      MergeKeepsFirstObject(pre, init, k);
      assert ps == pre + [ps[|ps| - 1]];
      FirstObjectSnoc(pre, ps[|ps| - 1], k);
    }
  }

  /** The concatenated initial contents of every object given for `k`, in
      argument order. */
  function ConcatFor<O(==), T>(ps: seq<(string, O)>, k: string, init: map<O, seq<T>>): seq<T>
    decreases |ps|
  {
    if ps == [] then []
    else ConcatFor(ps[..|ps| - 1], k, init)
         + (if ps[|ps| - 1].0 == k then ContentsOf(init, ps[|ps| - 1].1) else [])
  }

  predicate DistinctObjects<O(==)>(ps: seq<(string, O)>) {
    forall i, j :: 0 <= i < j < |ps| ==> ps[i].1 != ps[j].1
  }

  lemma {:induction false} ConcatForAbsent<O, T>(ps: seq<(string, O)>, k: string, init: map<O, seq<T>>)
    requires forall j :: 0 <= j < |ps| ==> ps[j].0 != k
    ensures ConcatFor(ps, k, init) == []
    decreases |ps|
  {
    if ps != [] {
      ConcatForAbsent(ps[..|ps| - 1], k, init);
    }
  }

  /** What the merge keeps true when no list object is passed twice: each
      key's list holds that key's lists concatenated, keys hold different
      lists, and lists not stored are untouched. */
  ghost predicate Concatenated<O, T>(st: MergeState<O, T>, ps: seq<(string, O)>, init: map<O, seq<T>>) {
    ListsConcatenated(st, ps, init) && ListsDistinct(st) && OthersUntouched(st, init)
  }

  ghost predicate ListsConcatenated<O, T>(st: MergeState<O, T>, ps: seq<(string, O)>, init: map<O, seq<T>>) {
    forall k :: k in st.out.values ==> ContentsOf(st.contents, st.out.values[k]) == ConcatFor(ps, k, init)
  }

  ghost predicate ListsDistinct<O, T>(st: MergeState<O, T>) {
    forall k1, k2 :: k1 in st.out.values && k2 in st.out.values && k1 != k2 ==>
      st.out.values[k1] != st.out.values[k2]
  }

  ghost predicate OthersUntouched<O, T>(st: MergeState<O, T>, init: map<O, seq<T>>) {
    forall o :: o in st.contents.Keys + init.Keys && o !in st.out.values.Values ==>
      ContentsOf(st.contents, o) == ContentsOf(init, o)
  }

  lemma ConcatForSnoc<O, T>(ps: seq<(string, O)>, p: (string, O), k: string, init: map<O, seq<T>>)
    ensures ConcatFor(ps + [p], k, init) == ConcatFor(ps, k, init) + (if p.0 == k then ContentsOf(init, p.1) else [])
  {
    assert (ps + [p])[..|ps|] == ps;
  }

  /** A pair with a new key and an object not yet stored keeps the
      invariant. */
  lemma StepNewKey<O, T>(st: MergeState<O, T>, ps: seq<(string, O)>, p: (string, O), init: map<O, seq<T>>)
    requires Valid(st.out) && Concatenated(st, ps, init)
    requires p.0 !in st.out.values && p.1 !in st.out.values.Values
    requires forall j :: 0 <= j < |ps| ==> ps[j].0 != p.0
    ensures Concatenated(Step(st, p), ps + [p], init)
  {
    var st' := Step(st, p);
    assert st' == MergeState(Put(st.out, p.0, p.1), st.contents);
    NewKeyConcatenated(st, ps, p, init);
    NewKeyDistinct(st, p);
    NewKeyUntouched(st, p, init);
  }

  lemma NewKeyConcatenated<O, T>(st: MergeState<O, T>, ps: seq<(string, O)>, p: (string, O), init: map<O, seq<T>>)
    requires Valid(st.out) && ListsConcatenated(st, ps, init) && OthersUntouched(st, init)
    requires p.0 !in st.out.values && p.1 !in st.out.values.Values
    requires forall j :: 0 <= j < |ps| ==> ps[j].0 != p.0
    ensures ListsConcatenated(MergeState(Put(st.out, p.0, p.1), st.contents), ps + [p], init)
  {
    var vs := st.out.values[p.0 := p.1];
    forall k | k in vs ensures ContentsOf(st.contents, vs[k]) == ConcatFor(ps + [p], k, init) {
      ConcatForSnoc(ps, p, k, init);
      if k == p.0 {
        ConcatForAbsent(ps, p.0, init);
      }
    }
  }

  lemma NewKeyDistinct<O, T>(st: MergeState<O, T>, p: (string, O))
    requires Valid(st.out) && ListsDistinct(st)
    requires p.0 !in st.out.values && p.1 !in st.out.values.Values
    ensures ListsDistinct(MergeState(Put(st.out, p.0, p.1), st.contents))
  {
    var vs := st.out.values[p.0 := p.1];
    forall k1, k2 | k1 in vs && k2 in vs && k1 != k2 ensures vs[k1] != vs[k2] {
      if k1 == p.0 {
        assert vs[k2] == st.out.values[k2];
      } else if k2 == p.0 {
        assert vs[k1] == st.out.values[k1];
      }
    }
  }

  lemma NewKeyUntouched<O, T>(st: MergeState<O, T>, p: (string, O), init: map<O, seq<T>>)
    requires Valid(st.out) && OthersUntouched(st, init)
    requires p.0 !in st.out.values
    ensures OthersUntouched(MergeState(Put(st.out, p.0, p.1), st.contents), init)
  {
    var vs := st.out.values[p.0 := p.1];
    forall o | o in st.out.values.Values ensures o in vs.Values {
      var k :| k in st.out.values && st.out.values[k] == o;
      assert vs[k] == o;
    }
  }

  /** A pair with a known key and an object not yet stored keeps the
      invariant. */
  lemma StepKnownKey<O, T>(st: MergeState<O, T>, ps: seq<(string, O)>, p: (string, O), init: map<O, seq<T>>)
    requires Valid(st.out) && Concatenated(st, ps, init)
    requires p.0 in st.out.values && p.1 !in st.out.values.Values
    ensures Concatenated(Step(st, p), ps + [p], init)
  {
    var target := st.out.values[p.0];
    var st' := Step(st, p);
    assert st' == MergeState(st.out, st.contents[target := ContentsOf(st.contents, target) + ContentsOf(st.contents, p.1)]);
    KnownKeyConcatenated(st, ps, p, init);
    KnownKeyUntouched(st, p, init);
  }

  lemma KnownKeyConcatenated<O, T>(st: MergeState<O, T>, ps: seq<(string, O)>, p: (string, O), init: map<O, seq<T>>)
    requires Valid(st.out) && Concatenated(st, ps, init)
    requires p.0 in st.out.values && p.1 !in st.out.values.Values
    ensures var target := st.out.values[p.0];
      ListsConcatenated(MergeState(st.out, st.contents[target := ContentsOf(st.contents, target) + ContentsOf(st.contents, p.1)]),
                        ps + [p], init)
  {
    var target := st.out.values[p.0];
    var c := st.contents[target := ContentsOf(st.contents, target) + ContentsOf(st.contents, p.1)];
    assert ContentsOf(st.contents, p.1) == ContentsOf(init, p.1);
    forall k | k in st.out.values ensures ContentsOf(c, st.out.values[k]) == ConcatFor(ps + [p], k, init) {
      ConcatForSnoc(ps, p, k, init);
      if k != p.0 {
        assert st.out.values[k] != target;
      }
    }
  }

  lemma KnownKeyUntouched<O, T>(st: MergeState<O, T>, p: (string, O), init: map<O, seq<T>>)
    requires Valid(st.out) && OthersUntouched(st, init)
    requires p.0 in st.out.values
    ensures var target := st.out.values[p.0];
      OthersUntouched(MergeState(st.out, st.contents[target := ContentsOf(st.contents, target) + ContentsOf(st.contents, p.1)]),
                      init)
  {
    var target := st.out.values[p.0];
    assert target in st.out.values.Values;
  }

  /**
   * When no list object is passed twice, the merged list for each key is
   * the concatenation of that key's lists in argument order, different keys
   * hold different lists, and every list not stored in the result keeps its
   * contents.
   */
  lemma {:induction false} MergeConcatenates<O, T>(ps: seq<(string, O)>, init: map<O, seq<T>>)
    requires DistinctObjects(ps)
    ensures Concatenated(Merge(ps, init), ps, init)
    decreases |ps|
  {
    if ps != [] {
      var pre := ps[..|ps| - 1];
      var p := ps[|ps| - 1];
      assert DistinctObjects(pre);
      MergeConcatenates(pre, init);
      MergeDomain(pre, init);
      var st := Merge(pre, init);
      // the last object is no earlier pair's object, so it is not stored yet
      forall j | 0 <= j < |pre| ensures pre[j].1 != p.1 {
        assert pre[j] == ps[j];
      }
      assert ps == pre + [p];
      MergeSnoc(pre, p, init);
      if p.0 !in st.out.values {
        MergeKeys(pre, init);
        StepNewKey(st, pre, p, init);
      } else {
        StepKnownKey(st, pre, p, init);
      }
    }
  }

  /** Without a repeated key nothing is extended: every list keeps its
      contents. */
  lemma {:induction false} MergeDistinctKeys<O, T>(ps: seq<(string, O)>, init: map<O, seq<T>>)
    requires forall i, j :: 0 <= i < j < |ps| ==> ps[i].0 != ps[j].0
    ensures Merge(ps, init).contents == init
    decreases |ps|
  {
    if ps != [] {
      var pre := ps[..|ps| - 1];
      MergeDistinctKeys(pre, init);
      MergeKeys(pre, init);
    }
  }

  lemma {:induction false} FirstSeenDistinct(ks: seq<string>)
    requires Distinct(ks)
    ensures FirstSeen(ks) == ks
    decreases |ks|
  {
    if ks != [] {
      FirstSeenDistinct(ks[..|ks| - 1]);
    }
  }

  lemma {:induction false} FirstObjectAt<O>(ps: seq<(string, O)>, j: nat)
    requires j < |ps| && forall i :: 0 <= i < j ==> ps[i].0 != ps[j].0
    ensures FirstObject(ps, ps[j].0) == Some(ps[j].1)
    decreases j
  {
    if j > 0 {
      FirstObjectAt(ps[1..], j - 1);
    }
  }

  /** Merging one dict with an empty one, in either order, gives that dict's
      keys and list objects back and changes no list. */
  lemma MergeWithEmpty<O, T>(d: Dict<O>, init: map<O, seq<T>>)
    requires Valid(d)
    ensures Flatten([d, Empty()]) == Flatten([Empty(), d]) == Items(d)
    ensures Merge(Items(d), init).out == d
    ensures Merge(Items(d), init).contents == init
  {
    FlattenWithEmpty(d);
    MergeItemsKeys(d, init);
    MergeItemsValues(d, init);
    MergeDistinctKeys(Items(d), init);
  }

  lemma FlattenWithEmpty<O>(d: Dict<O>)
    requires Valid(d)
    ensures Flatten([d, Empty()]) == Items(d)
    ensures Flatten([Empty(), d]) == Items(d)
  {
    assert [d, Empty()][..1] == [d];
    assert [Empty(), d][..1] == [Empty()];
    assert [d][..0] == [];
    assert [Empty<O>()][..0] == [];
    assert Items(Empty<O>()) == [];
    assert Flatten([Empty<O>()]) == [];
  }

  /** Merging one dict's pairs gives back its keys, in order. */
  lemma MergeItemsKeys<O, T>(d: Dict<O>, init: map<O, seq<T>>)
    requires Valid(d)
    ensures Merge(Items(d), init).out.keys == d.keys
  {
    MergeKeys(Items(d), init);
    assert KeysOf(Items(d)) == d.keys;
    FirstSeenDistinct(d.keys);
  }

  /** Merging one dict's pairs gives back its key-to-object map. */
  lemma MergeItemsValues<O, T>(d: Dict<O>, init: map<O, seq<T>>)
    requires Valid(d)
    ensures Merge(Items(d), init).out.values == d.values
  {
    var vs := Merge(Items(d), init).out.values;
    forall k ensures (k in vs <==> k in d.values) && (k in vs ==> vs[k] == d.values[k]) {
      MergeItemsValueAt(d, init, k);
    }
  }

  lemma MergeItemsValueAt<O, T>(d: Dict<O>, init: map<O, seq<T>>, k: string)
    requires Valid(d)
    ensures k in Merge(Items(d), init).out.values <==> k in d.values
    ensures k in d.values ==> Merge(Items(d), init).out.values[k] == d.values[k]
  {
    var ps := Items(d);
    MergeKeepsFirstObject(ps, init, k);
    if k in d.values {
      var j :| 0 <= j < |d.keys| && d.keys[j] == k;
      FirstObjectAt(ps, j);
    }
  }

  const ExampleInit: map<int, seq<int>> := map[1 := [1, 2], 2 := [3, 4], 3 := [5, 6], 4 := [7, 8]]

  lemma ExampleStep1()
    ensures Merge([("a", 1)], ExampleInit) == MergeState(Dict(["a"], map["a" := 1]), ExampleInit)
  {
    MergeSnoc([], ("a", 1), ExampleInit);
    assert [] + [("a", 1)] == [("a", 1)];
  }

  lemma ExampleStep2()
    ensures Merge([("a", 1), ("b", 2)], ExampleInit)
         == MergeState(Dict(["a", "b"], map["a" := 1, "b" := 2]), ExampleInit)
  {
    ExampleStep1();
    MergeSnoc([("a", 1)], ("b", 2), ExampleInit);
    assert [("a", 1)] + [("b", 2)] == [("a", 1), ("b", 2)];
  }

  lemma ExampleStep3()
    ensures Merge([("a", 1), ("b", 2), ("b", 3)], ExampleInit)
         == MergeState(Dict(["a", "b"], map["a" := 1, "b" := 2]), ExampleInit[2 := [3, 4, 5, 6]])
  {
    ExampleStep2();
    MergeSnoc([("a", 1), ("b", 2)], ("b", 3), ExampleInit);
    assert [("a", 1), ("b", 2)] + [("b", 3)] == [("a", 1), ("b", 2), ("b", 3)];
    assert ContentsOf(ExampleInit, 2) + ContentsOf(ExampleInit, 3) == [3, 4, 5, 6];
  }

  /**
   * The worked example: merging {"a": [1, 2], "b": [3, 4]} with
   * {"b": [5, 6], "c": [7, 8]}, the four lists being objects 1 to 4, gives
   * keys a, b, c; "b" keeps object 2, which now holds [3, 4, 5, 6], and
   * object 3 is unchanged.
   */
  lemma MergeExample()
    ensures var st := Merge([("a", 1), ("b", 2), ("b", 3), ("c", 4)], ExampleInit);
      st.out.keys == ["a", "b", "c"]
      && st.out.values == map["a" := 1, "b" := 2, "c" := 4]
      && st.contents == map[1 := [1, 2], 2 := [3, 4, 5, 6], 3 := [5, 6], 4 := [7, 8]]
  {
    ExampleStep4();
    ExampleContents();
  }

  lemma ExampleStep4()
    ensures Merge([("a", 1), ("b", 2), ("b", 3), ("c", 4)], ExampleInit)
         == MergeState(Dict(["a", "b", "c"], map["a" := 1, "b" := 2, "c" := 4]), ExampleInit[2 := [3, 4, 5, 6]])
  {
    var ps3 := [("a", 1), ("b", 2), ("b", 3)];
    var s3 := MergeState(Dict(["a", "b"], map["a" := 1, "b" := 2]), ExampleInit[2 := [3, 4, 5, 6]]);
    assert Merge(ps3, ExampleInit) == s3 by {
      ExampleStep3();
    }
    assert Merge([("a", 1), ("b", 2), ("b", 3), ("c", 4)], ExampleInit) == Step(s3, ("c", 4)) by {
      MergeSnoc(ps3, ("c", 4), ExampleInit);
      assert ps3 + [("c", 4)] == [("a", 1), ("b", 2), ("b", 3), ("c", 4)];
    }
    ExampleLastStep(s3);
  }

  lemma ExampleLastStep(s3: MergeState<int, int>)
    requires s3 == MergeState(Dict(["a", "b"], map["a" := 1, "b" := 2]), ExampleInit[2 := [3, 4, 5, 6]])
    ensures Valid(s3.out)
    ensures Step(s3, ("c", 4))
         == MergeState(Dict(["a", "b", "c"], map["a" := 1, "b" := 2, "c" := 4]), ExampleInit[2 := [3, 4, 5, 6]])
  {
    assert ["a", "b"] + ["c"] == ["a", "b", "c"];
  }

  lemma ExampleContents()
    ensures ExampleInit[2 := [3, 4, 5, 6]] == map[1 := [1, 2], 2 := [3, 4, 5, 6], 3 := [5, 6], 4 := [7, 8]]
  {
  }

  // -------------------------------------------------------- create_entities

  /** The entity classes the platforms pass to `create_entities`. */
  datatype EntityClass =
    | HCBinarySensor | HCSensor | HCEventSensor | HCActiveProgram | HCSwitch | HCPowerSwitch
    | HCSelect | HCProgram | HCStartIn | HCButton | HCStartButton | HCAbortButton | HCNumber
    | HCFan | HCLight

  datatype DeviceInfo = DeviceInfo(fields: map<string, string>)

  /** The integration's runtime data: the appliance, its device info and the
      available descriptions by type key. */
  datatype RuntimeData = RuntimeData(
    appliance: HomeAppliance,
    deviceInfo: DeviceInfo,
    availableEntityDescriptions: Dict<seq<Description>>)

  /** An entity instance: its class and the three constructor arguments. */
  datatype Entity = Entity(cls: EntityClass, description: Description, appliance: HomeAppliance, deviceInfo: DeviceInfo)

  /** The entities made for the first `n` requested keys. */
  function Instances(classes: Dict<EntityClass>, rd: RuntimeData, n: nat): seq<Entity>
    requires Valid(classes) && n <= |classes.keys|
    decreases n
  {
    if n == 0 then []
    else
      var key := classes.keys[n - 1];
      var ds := if key in rd.availableEntityDescriptions.values then rd.availableEntityDescriptions.values[key] else [];
      Instances(classes, rd, n - 1)
        + seq(|ds|, j requires 0 <= j < |ds| => Entity(classes.values[key], ds[j], rd.appliance, rd.deviceInfo))
  }

  /** `create_entities`: the entities, in creation order. */
  method CreateEntities(classes: Dict<EntityClass>, rd: RuntimeData) returns (entities: seq<Entity>)
    requires Valid(classes)
    ensures entities == Instances(classes, rd, |classes.keys|)
  {
    entities := [];
    for i := 0 to |classes.keys|
      invariant entities == Instances(classes, rd, i)
    {
      var key := classes.keys[i];
      var cls := classes.values[key];
      if key in rd.availableEntityDescriptions.values {
        var ds := rd.availableEntityDescriptions.values[key];
        ghost var before := entities;
        for j := 0 to |ds|
          invariant entities == before + seq(j, m requires 0 <= m < j => Entity(cls, ds[m], rd.appliance, rd.deviceInfo))
        {
          entities := entities + [Entity(cls, ds[j], rd.appliance, rd.deviceInfo)];
        }
      }
    }
  }

  /**
   * An entity is created exactly for each description listed under a
   * requested key that the runtime data has, with that key's class and
   * the runtime data's appliance and device info.
   */
  lemma {:induction false} InstancesMembers(classes: Dict<EntityClass>, rd: RuntimeData, n: nat, e: Entity)
    requires Valid(classes) && n <= |classes.keys|
    ensures e in Instances(classes, rd, n) <==>
      exists i :: 0 <= i < n && classes.keys[i] in rd.availableEntityDescriptions.values
        && e.cls == classes.values[classes.keys[i]]
        && e.description in rd.availableEntityDescriptions.values[classes.keys[i]]
        && e.appliance == rd.appliance && e.deviceInfo == rd.deviceInfo
    decreases n
  {
    if n > 0 {
      InstancesMembers(classes, rd, n - 1, e);
      var key := classes.keys[n - 1];
      var avail := rd.availableEntityDescriptions.values;
      var ds := if key in avail then avail[key] else [];
      var made := seq(|ds|, j requires 0 <= j < |ds| => Entity(classes.values[key], ds[j], rd.appliance, rd.deviceInfo));
      assert Instances(classes, rd, n) == Instances(classes, rd, n - 1) + made;
      if e in made {
        var j :| 0 <= j < |made| && made[j] == e;
        assert key in avail && e.description == ds[j];
      }
      if key in avail && e.cls == classes.values[key] && e.description in ds
         && e.appliance == rd.appliance && e.deviceInfo == rd.deviceInfo {
        var j :| 0 <= j < |ds| && ds[j] == e.description;
        assert made[j] == e;
      }
    }
  }

  /** One entity per description under each requested key that is present. */
  lemma {:induction false} InstancesCount(classes: Dict<EntityClass>, rd: RuntimeData, n: nat)
    requires Valid(classes) && n <= |classes.keys|
    ensures |Instances(classes, rd, n)| == CountFor(classes, rd, n)
    decreases n
  {
    if n > 0 {
      InstancesCount(classes, rd, n - 1);
    }
  }

  /** The number of descriptions available under the first `n` requested keys. */
  function CountFor(classes: Dict<EntityClass>, rd: RuntimeData, n: nat): nat
    requires Valid(classes) && n <= |classes.keys|
  {
    if n == 0 then 0
    else
      var key := classes.keys[n - 1];
      CountFor(classes, rd, n - 1)
        + if key in rd.availableEntityDescriptions.values then |rd.availableEntityDescriptions.values[key]| else 0
  }
}
