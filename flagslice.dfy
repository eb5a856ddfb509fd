/** A repeatable string flag: a flag value that may be given several times on
    the command line, each occurrence appended to a caller-owned list of
    strings. The first occurrence discards whatever default the list was
    seeded with when the flag was registered. */
module FlagSlice {

  datatype Option<T> = None | Some(value: T)

  /** The error a flag value may report to the flag parser. */
  datatype Error = Error(message: string)

  /** The strings a default contributes when the flag is registered: none for
      a nil default, otherwise all of them, in order. */
  function Defaults(value: Option<seq<string>>): seq<string>
  {
    match value
    case None => []
    case Some(d) => d
  }

  // ---------------------------------------------------------------------
  // Specification: the holder's state as a value, and what one occurrence
  // and a run of occurrences do to it.
  // ---------------------------------------------------------------------

  /** The contents of the target list, and whether the defaults have already
      been discarded by an earlier occurrence. */
  datatype State = State(target: seq<string>, replacing: bool)

  /** The state right after registration against a target that held `prior`. */
  function Registered(prior: seq<string>, value: Option<seq<string>>): State
  {
    State(prior + Defaults(value), false)
  }

  /** One occurrence `v` of the flag. Afterwards the defaults are discarded;
      if they already were, every element is kept in place and `v` comes
      last, so the list grows by exactly one; otherwise the list is `[v]`. */
  function Step(st: State, v: string): (r: State)
    ensures r.replacing
    ensures |r.target| == if st.replacing then |st.target| + 1 else 1
    ensures r.target[|r.target| - 1] == v
    ensures st.replacing ==> r.target[..|st.target|] == st.target
  {
    if st.replacing then State(st.target + [v], true)
    else State([v], true)
  }

  /** The occurrences `occ`, taken left to right. */
  function Apply(st: State, occ: seq<string>): (r: State)
    decreases |occ|
    ensures occ == [] ==> r == st
    ensures occ != [] || st.replacing ==> r.replacing
    ensures |r.target| == if occ == [] then |st.target|
                          else (if st.replacing then |st.target| else 0) + |occ|
  {
    if occ == [] then st else Apply(Step(st, occ[0]), occ[1..])
  }

  /** At least one occurrence leaves exactly the occurrences, in order,
      after what was kept: everything if the defaults were already
      discarded, nothing otherwise. */
  lemma {:induction false} ApplyTarget(st: State, occ: seq<string>)
    requires occ != []
    ensures Apply(st, occ).target == (if st.replacing then st.target else []) + occ
    ensures Apply(st, occ).replacing
    decreases |occ|
  {
    var next := Step(st, occ[0]);
    var base := if st.replacing then st.target else [];
    assert next.target == base + [occ[0]];
    if |occ| > 1 {
      ApplyTarget(next, occ[1..]);
      assert [occ[0]] + occ[1..] == occ;
      assert base + [occ[0]] + occ[1..] == base + occ;
    } else {
      assert occ == [occ[0]];
    }
  }

  /** Parsing the occurrences in two runs is parsing them in one. */
  lemma {:induction false} ApplyConcat(st: State, a: seq<string>, b: seq<string>)
    ensures Apply(st, a + b) == Apply(Apply(st, a), b)
    decreases |a|
  {
    if a == [] {
      assert a + b == b;
    } else {
      ApplyConcat(Step(st, a[0]), a[1..], b);
      assert (a + b)[0] == a[0];
      assert (a + b)[1..] == a[1..] + b;
    }
  }

  /** Once the flag has been registered with any default and against a target
      holding anything, n >= 1 occurrences leave the target equal to exactly
      those occurrences: the defaults are never merged in. */
  lemma OccurrencesReplaceDefaults(prior: seq<string>, value: Option<seq<string>>, occ: seq<string>)
    requires occ != []
    ensures Apply(Registered(prior, value), occ) == State(occ, true)
  {
    ApplyTarget(Registered(prior, value), occ);
  }

  // ---------------------------------------------------------------------
  // Rendering of a list of strings as the standard formatter's "%v" verb
  // prints it: the elements separated by single spaces, in brackets.
  // ---------------------------------------------------------------------

  function Join(xs: seq<string>): string
  {
    if xs == [] then ""
    else if |xs| == 1 then xs[0]
    else xs[0] + " " + Join(xs[1..])
  }

  function Render(xs: seq<string>): (r: string)
    ensures |r| >= 2 && r[0] == '[' && r[|r| - 1] == ']'
  {
    "[" + Join(xs) + "]"
  }

  /** Where element `k` starts inside `Join(xs)`. */
  function Offset(xs: seq<string>, k: nat): nat
    requires k < |xs|
  {
    if k == 0 then 0 else |xs[0]| + 1 + Offset(xs[1..], k - 1)
  }

  lemma {:induction false} JoinShowsElement(xs: seq<string>, k: nat)
    requires k < |xs|
    ensures Offset(xs, k) + |xs[k]| <= |Join(xs)|
    ensures Join(xs)[Offset(xs, k)..Offset(xs, k) + |xs[k]|] == xs[k]
  {
    if |xs| == 1 {
    } else if k == 0 {
      assert Join(xs) == xs[0] + (" " + Join(xs[1..]));
    } else {
      JoinShowsElement(xs[1..], k - 1);
      var head := xs[0] + " ";
      assert Join(xs) == head + Join(xs[1..]);
      var o := Offset(xs[1..], k - 1);
      assert Join(xs)[|head| + o..|head| + o + |xs[k]|] == Join(xs[1..])[o..o + |xs[k]|];
    }
  }

  lemma {:induction false} OffsetsInOrder(xs: seq<string>, j: nat, k: nat)
    requires j < k < |xs|
    ensures Offset(xs, j) + |xs[j]| < Offset(xs, k)
  {
    if j > 0 {
      OffsetsInOrder(xs[1..], j - 1, k - 1);
    }
  }

  /** Every element appears verbatim in the rendering, right after the
      opening bracket and its predecessors. */
  lemma {:induction false} RenderShowsElement(xs: seq<string>, k: nat)
    requires k < |xs|
    ensures 1 + Offset(xs, k) + |xs[k]| < |Render(xs)|
    ensures Render(xs)[1 + Offset(xs, k)..1 + Offset(xs, k) + |xs[k]|] == xs[k]
  {
    JoinShowsElement(xs, k);
    var r := Render(xs);
    assert r == "[" + Join(xs) + "]";
    assert r[1 + Offset(xs, k)..1 + Offset(xs, k) + |xs[k]|] == Join(xs)[Offset(xs, k)..Offset(xs, k) + |xs[k]|];
  }

  /** Every element appears verbatim in the rendering, one after the other
      in list order, never overlapping. */
  lemma {:induction false} RenderShowsElementsInOrder(xs: seq<string>, j: nat, k: nat)
    requires j < k < |xs|
    ensures 1 + Offset(xs, j) + |xs[j]| < 1 + Offset(xs, k)
    ensures 1 + Offset(xs, k) + |xs[k]| < |Render(xs)|
    ensures Render(xs)[1 + Offset(xs, j)..1 + Offset(xs, j) + |xs[j]|] == xs[j]
    ensures Render(xs)[1 + Offset(xs, k)..1 + Offset(xs, k) + |xs[k]|] == xs[k]
  {
    JoinShowsElement(xs, j);
    JoinShowsElement(xs, k);
    OffsetsInOrder(xs, j, k);
    var r := Render(xs);
    assert r == "[" + Join(xs) + "]";
    assert r[1 + Offset(xs, j)..1 + Offset(xs, j) + |xs[j]|] == Join(xs)[Offset(xs, j)..Offset(xs, j) + |xs[j]|];
    assert r[1 + Offset(xs, k)..1 + Offset(xs, k) + |xs[k]|] == Join(xs)[Offset(xs, k)..Offset(xs, k) + |xs[k]|];
  }

  // ---------------------------------------------------------------------
  // The holder and the caller's list it writes through.
  // ---------------------------------------------------------------------

  /** A caller-owned list of strings, shared by reference with the holder. */
  class Box {
    var v: seq<string>

    constructor (init: seq<string>)
      ensures v == init
    {
      v := init;
    }
  }

  /** The flag value registered with the flag parser. */
  class StringSlice {
    /** The caller's list. */
    const s: Box
    /** True once the defaults have been discarded. */
    var d: bool

    ghost function Model(): State
      reads this, s
    {
      State(s.v, d)
    }

    constructor (p: Box)
      ensures s == p && !d
    {
      s := p;
      d := false;
    }

    /** The textual form of the value: empty exactly when the list is. */
    function String(): (r: string)
      reads s
      ensures r == "" <==> s.v == []
      ensures s.v != [] ==> r == Render(s.v)
    {
      if |s.v| == 0 then "" else Render(s.v)
    }

    /** One occurrence of the flag; never fails. */
    method Set(v: string) returns (err: Option<Error>)
      modifies this, s
      ensures err == None
      ensures d
      ensures s.v == (if old(d) then old(s.v) else []) + [v]
      ensures Model() == Step(old(Model()), v)
    {
      if !d {
        s.v := [];
        d := true;
      }
      s.v := s.v + [v];
      err := None;
    }
  }

  /** Registers a repeatable flag writing into `p`: the default, when there
      is one, is appended to what `p` already holds, and the holder starts
      with the defaults not yet discarded. */
  method StringVarFS(p: Box, value: Option<seq<string>>) returns (h: StringSlice)
    modifies p
    ensures fresh(h) && h.s == p && !h.d
    ensures p.v == old(p.v) + Defaults(value)
    ensures h.Model() == Registered(old(p.v), value)
  {
    h := new StringSlice(p);
    if value.Some? {
      p.v := p.v + value.value;
    }
  }

  /** Registers a repeatable flag writing into a fresh list, which holds
      exactly the default (empty for a nil default) until the first
      occurrence. */
  method StringFS(value: Option<seq<string>>) returns (p: Box, h: StringSlice)
    ensures fresh(p) && fresh(h) && h.s == p && !h.d
    ensures p.v == Defaults(value)
    ensures h.Model() == Registered([], value)
  {
    p := new Box([]);
    h := StringVarFS(p, value);
  }
}
