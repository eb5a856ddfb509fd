/** Parsing a command line into a repeatable string flag, and the scenarios
    the package's own tests exercise. */
module FlagSliceTest {
  import opened FlagSlice

  /** The flag parser's side of the contract: one `Set` per occurrence of
      the flag, left to right. The parser stops at a reported error; `Set`
      never reports one. */
  method Parse(h: StringSlice, occ: seq<string>)
    modifies h, h.s
    ensures h.Model() == Apply(old(h.Model()), occ)
  {
    ghost var start := h.Model();
    var i := 0;
    while i < |occ|
      invariant 0 <= i <= |occ|
      invariant h.Model() == Apply(start, occ[..i])
    {
      var err := h.Set(occ[i]);
      ApplyConcat(start, occ[..i], [occ[i]]);
      assert occ[..i + 1] == occ[..i] + [occ[i]];
      i := i + 1;
    }
    assert occ[..i] == occ;
  }

  /** Registers the flag with default `def` on a fresh list and parses the
      occurrences `occ`: the result is the default (empty, never absent,
      for a nil default) when the flag does not occur, and exactly the
      occurrences in order, duplicates included, when it does. */
  method TestParse(def: Option<seq<string>>, occ: seq<string>) returns (result: seq<string>)
    ensures occ == [] ==> result == Defaults(def)
    ensures occ != [] ==> result == occ
  {
    var p, h := StringFS(def);
    Parse(h, occ);
    if occ != [] {
      OccurrencesReplaceDefaults([], def, occ);
    }
    result := p.v;
  }

  /** The four cases of the package's test: a nil, an empty and a non-empty
      default with `-f foo -f=bar`, and a nil default with no arguments. */
  method TestString() returns (nilDefault: seq<string>, emptyDefault: seq<string>,
                               withDefault: seq<string>, noArguments: seq<string>)
    ensures nilDefault == ["foo", "bar"]
    ensures emptyDefault == ["foo", "bar"]
    ensures withDefault == ["foo", "bar"]
    ensures noArguments == []
  {
    nilDefault := TestParse(None, ["foo", "bar"]);
    emptyDefault := TestParse(Some([]), ["foo", "bar"]);
    withDefault := TestParse(Some(["tridge", "baaz"]), ["foo", "bar"]);
    noArguments := TestParse(None, []);
  }
}
