/**
 * minigrep's library: argument validation into a `Config`, and the two line
 * searches (case-sensitive and ASCII case-insensitive) over the lines of a
 * file's contents. Reading the file and printing the results are not part
 * of this module; the `CASE_INSENSITIVE` environment lookup is a parameter.
 */
module Minigrep {
  import opened Sequences

  datatype Result<T> = Ok(value: T) | Err(error: string)

  datatype Config = Config(query: string, fileName: string, caseSensitive: bool)

  const NOT_ENOUGH_ARGUMENTS: string := "Not enough arguments!"

  /**
   * `Config::new`: the program name, the query and the file name are needed;
   * with fewer than three arguments the error message is returned. The search
   * is case-sensitive unless reading `CASE_INSENSITIVE` succeeds:
   * `caseInsensitiveSet` stands for the variable being set to valid Unicode.
   */
  function NewConfig(args: seq<string>, caseInsensitiveSet: bool): (r: Result<Config>)
    ensures r.Err? <==> |args| < 3
    ensures r.Err? ==> r.error == NOT_ENOUGH_ARGUMENTS
    ensures r.Ok? ==> r.value.query == args[1] && r.value.fileName == args[2]
    ensures r.Ok? ==> (r.value.caseSensitive <==> !caseInsensitiveSet)
  {
    if |args| < 3 then Err(NOT_ENOUGH_ARGUMENTS)
    else Ok(Config(args[1], args[2], !caseInsensitiveSet))
  }

  // ---------------------------------------------------------------------
  // Lines
  // ---------------------------------------------------------------------

  /** The index of the first `c` in `s`, or `|s|` when there is none. */
  function IndexOf(s: string, c: char): (i: nat)
    ensures i <= |s|
    ensures i < |s| ==> s[i] == c
    ensures forall j :: 0 <= j < i ==> s[j] != c
  {
    if s == [] then 0
    else if s[0] == c then 0
    else 1 + IndexOf(s[1..], c)
  }

  /** A line that was ended by `"\r\n"` loses its carriage return. */
  function StripCarriageReturn(line: string): string
  {
    if |line| > 0 && line[|line| - 1] == '\r' then line[..|line| - 1] else line
  }

  /**
   * `str::lines`: the pieces between line feeds, each without its `"\n"` or
   * `"\r\n"` terminator; the last line's terminator is optional, so an empty
   * text has no lines and a trailing line feed adds no empty line.
   */
  function Lines(s: string): (r: seq<string>)
    ensures forall k :: 0 <= k < |r| ==> '\n' !in r[k]
    ensures s == [] <==> r == []
    decreases |s|
  {
    if s == [] then []
    else
      var i := IndexOf(s, '\n');
      if i == |s| then [s]
      else [StripCarriageReturn(s[..i])] + Lines(s[i + 1..])
  }

  /** Each line followed by a line feed: the text whose `Lines` are `lines`. */
  function JoinLines(lines: seq<string>): string
  {
    if lines == [] then [] else lines[0] + "\n" + JoinLines(lines[1..])
  }

  /** A line `Lines` can give back unchanged: no line feed, and no carriage return at its end. */
  predicate PlainLine(line: string)
  {
    '\n' !in line && (|line| == 0 || line[|line| - 1] != '\r')
  }

  /** Splitting undoes joining: terminated plain lines are found again, in order. */
  lemma {:induction false} LinesOfJoin(lines: seq<string>)
    requires forall k :: 0 <= k < |lines| ==> PlainLine(lines[k])
    ensures Lines(JoinLines(lines)) == lines
  {
    if lines != [] {
      var s := JoinLines(lines);
      var head := lines[0];
      var rest := JoinLines(lines[1..]);
      assert s == head + "\n" + rest;
      assert IndexOf(s, '\n') == |head| by {
        assert s[|head|] == '\n';
        assert forall j :: 0 <= j < |head| ==> s[j] == head[j];
        IndexOfFirst(s, '\n', |head|);
      }
      assert s[..|head|] == head;
      assert s[|head| + 1..] == rest;
      LinesOfJoin(lines[1..]);
    }
  }

  /** `IndexOf` finds the first occurrence. */
  lemma IndexOfFirst(s: string, c: char, i: nat)
    requires i < |s| && s[i] == c
    requires forall j :: 0 <= j < i ==> s[j] != c
    ensures IndexOf(s, c) == i
  {
  }

  // ---------------------------------------------------------------------
  // Substrings and lower case
  // ---------------------------------------------------------------------

  /** `str::contains`: `query` occurs in `s`, tried at each starting position in turn. */
  predicate Contains(s: string, query: string)
    decreases |s|
  {
    query <= s || (s != [] && Contains(s[1..], query))
  }

  /** `query` occurs in `s` starting at index `i`. */
  predicate OccursAt(s: string, query: string, i: int)
  {
    0 <= i && i + |query| <= |s| && s[i..i + |query|] == query
  }

  /** `Contains` is the substring relation: some index starts an occurrence of the query. */
  lemma {:induction false} ContainsIff(s: string, query: string)
    ensures Contains(s, query) <==> exists i :: OccursAt(s, query, i)
  {
    if Contains(s, query) {
      if query <= s {
        assert s[0..|query|] == query;
        assert OccursAt(s, query, 0);
      } else {
        ContainsIff(s[1..], query);
        var i :| OccursAt(s[1..], query, i);
        assert s[i + 1..i + 1 + |query|] == s[1..][i..i + |query|];
        assert OccursAt(s, query, i + 1);
      }
    }
    if exists i :: OccursAt(s, query, i) {
      var i :| OccursAt(s, query, i);
      if i == 0 {
        assert s[..|query|] == query;
      } else {
        assert s[1..][i - 1..i - 1 + |query|] == s[i..i + |query|];
        assert OccursAt(s[1..], query, i - 1);
        ContainsIff(s[1..], query);
      }
    }
  }

  /** `char::to_lowercase` on ASCII letters: 'A' to 'Z' map to 'a' to 'z', every other character is kept. */
  function Lower(c: char): (r: char)
    ensures 'A' <= c <= 'Z' ==> 'a' <= r <= 'z' && r as int - c as int == 32
    ensures !('A' <= c <= 'Z') ==> r == c
  {
    if 'A' <= c <= 'Z' then (c as int + 32) as char else c
  }

  /** `str::to_lowercase`, character by character. */
  function LowerStr(s: string): (r: string)
    ensures |r| == |s|
    ensures forall i :: 0 <= i < |s| ==> r[i] == Lower(s[i])
  {
    seq(|s|, i requires 0 <= i < |s| => Lower(s[i]))
  }

  /** Lowercasing twice is lowercasing once, and leaves no upper-case ASCII letter. */
  lemma LowerStrIdempotent(s: string)
    ensures LowerStr(LowerStr(s)) == LowerStr(s)
    ensures forall i :: 0 <= i < |s| ==> !('A' <= LowerStr(s)[i] <= 'Z')
  {
  }

  /** Lowercasing maps an occurrence of the query to an occurrence of the lowercased query. */
  lemma ContainsLower(s: string, query: string)
    requires Contains(s, query)
    ensures Contains(LowerStr(s), LowerStr(query))
  {
    ContainsIff(s, query);
    var i :| OccursAt(s, query, i);
    assert LowerStr(s)[i..i + |query|] == LowerStr(query) by {
      forall j | 0 <= j < |query|
        ensures LowerStr(s)[i..i + |query|][j] == LowerStr(query)[j]
      {
        assert s[i..i + |query|][j] == query[j];
      }
    }
    assert OccursAt(LowerStr(s), LowerStr(query), i);
    ContainsIff(LowerStr(s), LowerStr(query));
  }

  // ---------------------------------------------------------------------
  // The searches
  // ---------------------------------------------------------------------

  function ContainsQuery(query: string): string -> bool
  {
    (line: string) => Contains(line, query)
  }

  /** The case-insensitive test, given the query already lowercased. */
  function ContainsLowered(lowered: string): string -> bool
  {
    (line: string) => Contains(LowerStr(line), lowered)
  }

  /** The lines a case-sensitive search reports, in file order. */
  function Matching(query: string, contents: string): (r: seq<string>)
    ensures |r| <= |Lines(contents)|
  {
    Keep(Lines(contents), ContainsQuery(query))
  }

  /** The lines a case-insensitive search reports, in file order. */
  function MatchingIgnoringCase(query: string, contents: string): (r: seq<string>)
    ensures |r| <= |Lines(contents)|
  {
    Keep(Lines(contents), ContainsLowered(LowerStr(query)))
  }

  /**
   * `search`: walk the lines and collect those that contain the query. The
   * result holds exactly the matching lines, in their original order.
   */
  method Search(query: string, contents: string) returns (results: seq<string>)
    ensures results == Matching(query, contents)
    ensures forall line :: line in results <==> line in Lines(contents) && Contains(line, query)
  {
    var lines := Lines(contents);
    results := [];
    for i := 0 to |lines|
      invariant results == Keep(lines[..i], ContainsQuery(query))
    {
      assert lines[..i + 1][..i] == lines[..i];
      if Contains(lines[i], query) {
        results := results + [lines[i]];
      }
    }
    assert lines[..|lines|] == lines;
    forall line
      ensures line in results <==> line in lines && Contains(line, query)
    {
      KeepMember(lines, ContainsQuery(query), line);
    }
  }

  /**
   * `search_case_insensitive`: lowercase the query once, then collect the
   * lines whose lowercased form contains it, in their original order.
   */
  method SearchCaseInsensitive(query: string, contents: string) returns (results: seq<string>)
    ensures results == MatchingIgnoringCase(query, contents)
    ensures forall line :: line in results <==>
      line in Lines(contents) && Contains(LowerStr(line), LowerStr(query))
  {
    var lowered := LowerStr(query);
    var lines := Lines(contents);
    results := [];
    for i := 0 to |lines|
      invariant results == Keep(lines[..i], ContainsLowered(lowered))
    {
      assert lines[..i + 1][..i] == lines[..i];
      if Contains(LowerStr(lines[i]), lowered) {
        results := results + [lines[i]];
      }
    }
    assert lines[..|lines|] == lines;
    forall line
      ensures line in results <==> line in lines && Contains(LowerStr(line), LowerStr(query))
    {
      KeepMember(lines, ContainsLowered(lowered), line);
    }
  }

  /** An empty file has no lines, so neither search reports anything. */
  lemma EmptyContents(query: string)
    ensures Matching(query, []) == [] && MatchingIgnoringCase(query, []) == []
  {
  }

  /** An empty query is contained in every line, so both searches report every line of the text. */
  lemma EmptyQuery(contents: string)
    ensures Matching([], contents) == Lines(contents)
    ensures MatchingIgnoringCase([], contents) == Lines(contents)
  {
    var lines := Lines(contents);
    forall i | 0 <= i < |lines|
      ensures ContainsQuery([])(lines[i]) && ContainsLowered(LowerStr([]))(lines[i])
    {
      assert [] <= lines[i];
      assert [] <= LowerStr(lines[i]);
    }
    KeepAll(lines, ContainsQuery([]));
    KeepAll(lines, ContainsLowered(LowerStr([])));
  }

  /**
   * Every case-sensitive match is a case-insensitive match: the
   * case-sensitive results are the case-insensitive results filtered again
   * by the exact query, so they appear among them in the same order.
   */
  lemma SensitiveWithinInsensitive(query: string, contents: string)
    ensures Matching(query, contents) == Keep(MatchingIgnoringCase(query, contents), ContainsQuery(query))
  {
    forall line | ContainsQuery(query)(line)
      ensures ContainsLowered(LowerStr(query))(line)
    {
      ContainsLower(line, query);
    }
    KeepRefine(Lines(contents), ContainsQuery(query), ContainsLowered(LowerStr(query)));
  }

  /** The case-insensitive search depends on the query only through its lowercase form: "tEsT" and "test" find the same lines. */
  lemma QueryCaseIrrelevant(query: string, other: string, contents: string)
    requires LowerStr(query) == LowerStr(other)
    ensures MatchingIgnoringCase(query, contents) == MatchingIgnoringCase(other, contents)
  {
    KeepAgree(Lines(contents), ContainsLowered(LowerStr(query)), ContainsLowered(LowerStr(other)));
  }
}
