/**
 * Compilation of the grouping configuration: each group's list of
 * patterns becomes one alternation pattern, and the table from group to
 * patterns becomes a table from combined pattern to group.
 */
module Parser {

  /** A pattern wrapped as one alternative: `(p)`. */
  function Wrap(p: string): string
  {
    "(" + p + ")"
  }

  function WrapAll(ps: seq<string>): (r: seq<string>)
    ensures |r| == |ps|
    ensures forall i :: 0 <= i < |ps| ==> r[i] == Wrap(ps[i])
  {
    if ps == [] then [] else [Wrap(ps[0])] + WrapAll(ps[1..])
  }

  /** strings.Join: the parts with `sep` between each two neighbours. */
  function Join(parts: seq<string>, sep: string): string
  {
    if |parts| == 0 then ""
    else if |parts| == 1 then parts[0]
    else parts[0] + sep + Join(parts[1..], sep)
  }

  /** The combined pattern of a group: its patterns as alternatives, in list order. */
  function GroupRegex(ps: seq<string>): string
  {
    Join(WrapAll(ps), "|")
  }

  /** makeGroupRegex */
  method MakeGroupRegex(regexes: seq<string>) returns (r: string)
    ensures r == GroupRegex(regexes)
  {
    var wrappedRegexes := new string[|regexes|];
    for i := 0 to |regexes|
      invariant forall k :: 0 <= k < i ==> wrappedRegexes[k] == Wrap(regexes[k])
    {
      wrappedRegexes[i] := "(" + regexes[i] + ")";
    }
    assert wrappedRegexes[..] == WrapAll(regexes);
    r := Join(wrappedRegexes[..], "|");
  }

  /**
   * What Parse promises of its output: every key is the combined pattern
   * of the group it maps to, and every group's combined pattern is a key.
   */
  ghost predicate IsParseOf(input: map<string, seq<string>>, output: map<string, string>)
  {
    && (forall k :: k in output ==> output[k] in input && GroupRegex(input[output[k]]) == k)
    && (forall g :: g in input ==> GroupRegex(input[g]) in output)
  }

  /**
   * Parse. The groups are visited in an order the model leaves open, as
   * Go's map iteration does; when two groups share a combined pattern,
   * the one visited last keeps it.
   */
  method Parse(inputMap: map<string, seq<string>>) returns (outputMap: map<string, string>)
    ensures IsParseOf(inputMap, outputMap)
    ensures |outputMap| <= |inputMap|
  {
    outputMap := map[];
    var remaining := inputMap.Keys;
    while remaining != {}
      invariant remaining <= inputMap.Keys
      invariant forall k :: k in outputMap ==> outputMap[k] in inputMap && GroupRegex(inputMap[outputMap[k]]) == k
      invariant forall g :: g in inputMap && g !in remaining ==> GroupRegex(inputMap[g]) in outputMap
      invariant |outputMap| <= |inputMap.Keys| - |remaining|
      decreases remaining
    {
      var group :| group in remaining;
      var regex := MakeGroupRegex(inputMap[group]);
      outputMap := outputMap[regex := group];
      remaining := remaining - {group};
    }
  }
}

/** What makeGroupRegex and Parse promise. */
module ParserProofs {
  import opened Parser

  function TotalLength(ps: seq<string>): nat
  {
    if ps == [] then 0 else |ps[0]| + TotalLength(ps[1..])
  }

  /** A group with one pattern `p` compiles to `(p)`, with no separator. */
  lemma SinglePattern(p: string)
    ensures GroupRegex([p]) == "(" + p + ")"
  {
  }

  /** The first pattern is wrapped and, when more follow, separated from them by `|`. */
  lemma {:induction false} GroupRegexCons(p: string, ps: seq<string>)
    ensures GroupRegex([p] + ps) == if ps == [] then Wrap(p) else Wrap(p) + "|" + GroupRegex(ps)
  {
    assert WrapAll([p] + ps) == [Wrap(p)] + WrapAll(ps);
  }

  /** Concatenating two pattern lists joins their combined patterns with `|`, keeping list order. */
  lemma {:induction false} GroupRegexAppend(ps: seq<string>, qs: seq<string>)
    requires ps != [] && qs != []
    ensures GroupRegex(ps + qs) == GroupRegex(ps) + "|" + GroupRegex(qs)
  {
    assert ps + qs == [ps[0]] + (ps[1..] + qs);
    GroupRegexCons(ps[0], ps[1..] + qs);
    GroupRegexCons(ps[0], ps[1..]);
    if ps[1..] != [] {
      GroupRegexAppend(ps[1..], qs);
    }
  }

  /** Two characters of wrapping per pattern and one separator between each two patterns. */
  lemma {:induction false} GroupRegexLength(ps: seq<string>)
    ensures |GroupRegex(ps)| == TotalLength(ps) + 2 * |ps| + (if ps == [] then 0 else |ps| - 1)
  {
    if ps != [] {
      assert ps == [ps[0]] + ps[1..];
      GroupRegexCons(ps[0], ps[1..]);
      GroupRegexLength(ps[1..]);
    }
  }

  /** The group of the test table: two patterns become two alternatives. */
  lemma TwoPatterns()
    ensures GroupRegex([".*-groupa", "groupa-.*"]) == "(.*-groupa)|(groupa-.*)"
  {
    GroupRegexCons(".*-groupa", ["groupa-.*"]);
  }

  /** No two groups share a combined pattern. */
  ghost predicate NoCollision(input: map<string, seq<string>>)
  {
    forall g, h :: g in input && h in input && g != h ==> GroupRegex(input[g]) != GroupRegex(input[h])
  }

  /** The values of a map whose values are distinct are as many as its keys. */
  lemma {:induction false} DistinctValuesCount<K, V>(m: map<K, V>)
    requires forall a, b :: a in m && b in m && a != b ==> m[a] != m[b]
    ensures |m.Values| == |m|
    decreases |m|
  {
    if |m| > 0 {
      var k :| k in m;
      var rest := m - {k};
      forall v | v in m.Values - {m[k]} ensures v in rest.Values {
        var a :| a in m && m[a] == v;
        assert a in rest;
      }
      assert rest.Values == m.Values - {m[k]};
      assert rest.Keys == m.Keys - {k};
      assert |rest| == |m| - 1;
      DistinctValuesCount(rest);
    }
  }

  /** Every output value is an input group, and different keys map to different groups. */
  lemma OutputGroupsDistinct(input: map<string, seq<string>>, output: map<string, string>)
    requires IsParseOf(input, output)
    ensures output.Values <= input.Keys
    ensures |output.Values| == |output|
  {
    forall a, b | a in output && b in output && a != b ensures output[a] != output[b] {
    }
    DistinctValuesCount(output);
  }

  /**
   * Without collisions the output is determined, whatever order the
   * groups are visited in, and has one entry per group.
   */
  lemma ParseDetermined(input: map<string, seq<string>>, o1: map<string, string>, o2: map<string, string>)
    requires NoCollision(input) && IsParseOf(input, o1) && IsParseOf(input, o2)
    ensures o1 == o2
    ensures |o1| == |input|
  {
    SameKeys(input, o1, o2);
    forall k | k in o1 ensures o1[k] == o2[k] {
      assert GroupRegex(input[o1[k]]) == k == GroupRegex(input[o2[k]]);
    }
    OutputGroupsDistinct(input, o1);
    EveryGroupIsAValue(input, o1);
    assert |o1| == |o1.Values| == |input.Keys| == |input|;
  }

  /** Two outputs of Parse have the same keys: the combined patterns of the groups. */
  lemma SameKeys(input: map<string, seq<string>>, o1: map<string, string>, o2: map<string, string>)
    requires IsParseOf(input, o1) && IsParseOf(input, o2)
    ensures o1.Keys == o2.Keys
  {
    forall k | k in o1 ensures k in o2 {
      assert GroupRegex(input[o1[k]]) == k;
    }
    forall k | k in o2 ensures k in o1 {
      assert GroupRegex(input[o2[k]]) == k;
    }
  }

  /** Without collisions every group survives as a value. */
  lemma EveryGroupIsAValue(input: map<string, seq<string>>, output: map<string, string>)
    requires NoCollision(input) && IsParseOf(input, output)
    ensures output.Values == input.Keys
  {
    forall g | g in input ensures g in output.Values {
      var k := GroupRegex(input[g]);
      assert output[k] in input && GroupRegex(input[output[k]]) == k;
      assert output[k] == g;
    }
  }

  /** When two groups share a combined pattern, at most one of them survives as a value. */
  lemma CollisionLosesAGroup(input: map<string, seq<string>>, output: map<string, string>, g: string, h: string)
    requires IsParseOf(input, output)
    requires g in input && h in input && g != h && GroupRegex(input[g]) == GroupRegex(input[h])
    ensures g !in output.Values || h !in output.Values
    ensures |output| < |input|
  {
    var k := GroupRegex(input[g]);
    var loser := if output[k] == g then h else g;
    OutputGroupsDistinct(input, output);
    forall v | v in output.Values ensures v != loser {
      var a :| a in output && output[a] == v;
      assert GroupRegex(input[v]) == a;
      if a == k {
        assert v == output[k];
      }
    }
    assert output.Values <= input.Keys - {loser};
    assert |input.Keys - {loser}| == |input| - 1;
    var rest := input.Keys - {loser};
    assert rest == output.Values + (rest - output.Values);
    assert |output.Values| <= |rest|;
  }

  /** The table of the source's test compiles to the expected one. */
  lemma ParseTestTable(output: map<string, string>)
    requires IsParseOf(map["groupa" := [".*-groupa", "groupa-.*"], "groupb" := ["groupb-.*-groupb"]], output)
    ensures output == map["(.*-groupa)|(groupa-.*)" := "groupa", "(groupb-.*-groupb)" := "groupb"]
  {
    var input := map["groupa" := [".*-groupa", "groupa-.*"], "groupb" := ["groupb-.*-groupb"]];
    var expected := map["(.*-groupa)|(groupa-.*)" := "groupa", "(groupb-.*-groupb)" := "groupb"];
    TestTableHasNoCollision();
    TestTableExpected();
    ParseDetermined(input, output, expected);
  }

  lemma TestTableHasNoCollision()
    ensures NoCollision(map["groupa" := [".*-groupa", "groupa-.*"], "groupb" := ["groupb-.*-groupb"]])
  {
    var input := map["groupa" := [".*-groupa", "groupa-.*"], "groupb" := ["groupb-.*-groupb"]];
    TwoPatterns();
    SinglePattern("groupb-.*-groupb");
    assert input.Keys == {"groupa", "groupb"};
    assert |GroupRegex(input["groupa"])| != |GroupRegex(input["groupb"])|;
  }

  lemma TestTableExpected()
    ensures IsParseOf(map["groupa" := [".*-groupa", "groupa-.*"], "groupb" := ["groupb-.*-groupb"]],
                      map["(.*-groupa)|(groupa-.*)" := "groupa", "(groupb-.*-groupb)" := "groupb"])
  {
    var input := map["groupa" := [".*-groupa", "groupa-.*"], "groupb" := ["groupb-.*-groupb"]];
    var expected := map["(.*-groupa)|(groupa-.*)" := "groupa", "(groupb-.*-groupb)" := "groupb"];
    var ka, kb := "(.*-groupa)|(groupa-.*)", "(groupb-.*-groupb)";
    TwoPatterns();
    SinglePattern("groupb-.*-groupb");
    assert GroupRegex(input["groupa"]) == ka && GroupRegex(input["groupb"]) == kb;
    forall k | k in expected ensures expected[k] in input && GroupRegex(input[expected[k]]) == k {
      assert k == ka || k == kb;
    }
    forall g | g in input ensures GroupRegex(input[g]) in expected {
      assert g == "groupa" || g == "groupb";
    }
  }
}
