/** Compute-capability tags in engine plan names (src/embedder/sm_detect.rs,
    src/embedder/trt_cache/enumerate.rs, `extract_sm_tag` in src/embedder/trt_cache_gc.rs). */
module SmTags {
  import opened Outcomes

  predicate HasSuffix(s: string, suffix: string) {
    |suffix| <= |s| && s[|s| - |suffix|..] == suffix
  }

  function StripSuffix(s: string, suffix: string): Option<string> {
    if HasSuffix(s, suffix) then Some(s[..|s| - |suffix|]) else None
  }

  predicate IsDigit(c: char) { '0' <= c <= '9' }

  predicate AllDigits(s: string) { forall i :: 0 <= i < |s| ==> IsDigit(s[i]) }

  /** `sm` followed by digits, as the TensorRT provider writes it. */
  predicate WellFormedTag(tag: string) {
    |tag| >= 3 && tag[0] == 's' && tag[1] == 'm' && AllDigits(tag[2..])
  }

  // ---- Plan names ----

  const ENGINE := ".engine"

  predicate MatchesSmSuffix(name: string, sm: string) {
    HasSuffix(name, "_" + sm + ENGINE)
  }

  /** `_sm` stands at position i. */
  predicate MarkAt(s: string, i: nat) {
    i + 3 <= |s| && s[i] == '_' && s[i + 1] == 's' && s[i + 2] == 'm'
  }

  /** The last occurrence of `_sm`. */
  function RFindMark(s: string): (r: Option<nat>)
    ensures r.Some? ==> MarkAt(s, r.value) && forall i :: r.value < i ==> !MarkAt(s, i)
    ensures r.None? ==> forall i :: 0 <= i ==> !MarkAt(s, i)
  {
    LastMark(s, |s|)
  }

  /** The last occurrence starting before `limit`. */
  function LastMark(s: string, limit: nat): (r: Option<nat>)
    requires limit <= |s|
    ensures r.Some? ==> r.value < limit && MarkAt(s, r.value) && forall i :: r.value < i < limit ==> !MarkAt(s, i)
    ensures r.None? ==> forall i :: 0 <= i < limit ==> !MarkAt(s, i)
  {
    if limit == 0 then None
    else if MarkAt(s, limit - 1) then Some(limit - 1)
    else LastMark(s, limit - 1)
  }

  function ExtractSmTag(stem: string): Option<string> {
    var mark := RFindMark(stem);
    if mark.None? then None
    else
      var tag := stem[mark.value + 1..];
      if |tag| < 3 || !AllDigits(tag[2..]) then None else Some(tag)
  }

  lemma FromHere(s: string, i: nat)
    requires i < |s|
    ensures s[i..] == [s[i]] + s[i + 1..]
  {}

  /** Extraction returns a well-formed tag exactly when the stem ends in it behind an underscore. */
  lemma ExtractIffSuffix(stem: string, sm: string)
    requires WellFormedTag(sm)
    ensures ExtractSmTag(stem) == Some(sm) <==> HasSuffix(stem, "_" + sm)
  {
    if ExtractSmTag(stem) == Some(sm) {
      var at := RFindMark(stem).value;
      FromHere(stem, at);
      assert |stem| - |sm| - 1 == at;
    }
    if HasSuffix(stem, "_" + sm) {
      var at := |stem| - |sm| - 1;
      assert stem[at..] == "_" + sm;
      assert MarkAt(stem, at) by {
        assert stem[at] == stem[at..][0] && stem[at + 1] == stem[at..][1] && stem[at + 2] == stem[at..][2];
      }
      forall i | at < i < |stem| ensures stem[i] != '_' {
        assert stem[i] == stem[at..][i - at] == sm[i - at - 1];
        assert i - at - 1 >= 2 ==> sm[i - at - 1] == sm[2..][i - at - 3];
      }
      assert RFindMark(stem) == Some(at);
      assert stem[at + 1..] == stem[at..][1..] == sm;
    }
  }

  lemma ExtractedWellFormed(stem: string)
    ensures ExtractSmTag(stem).Some? ==> WellFormedTag(ExtractSmTag(stem).value)
  {}

  lemma SuffixSplits(s: string, t: string, u: string)
    ensures HasSuffix(s + u, t + u) <==> HasSuffix(s, t)
  {
    if |t| <= |s| {
      assert (s + u)[|s + u| - |t + u|..] == s[|s| - |t|..] + u;
      if s[|s| - |t|..] + u == t + u {
        assert s[|s| - |t|..] == (t + u)[..|t|];
      }
    }
  }

  /** The collector's reading of a plan name agrees with the enumerator's. */
  lemma ExtractAgreesWithEnumerator(stem: string, sm: string)
    requires WellFormedTag(sm)
    ensures ExtractSmTag(stem) == Some(sm) <==> MatchesSmSuffix(stem + ENGINE, sm)
  {
    ExtractIffSuffix(stem, sm);
    SuffixSplits(stem, "_" + sm, ENGINE);
  }

  /** Distinct tags select disjoint sets of plans; in particular sm12 never selects an sm120 plan. */
  lemma DistinctTagsDisjoint(name: string, sm: string, sm': string)
    requires WellFormedTag(sm) && WellFormedTag(sm') && MatchesSmSuffix(name, sm) && MatchesSmSuffix(name, sm')
    ensures sm == sm'
  {
    var stem := name[..|name| - |ENGINE|];
    EndsInEngine(name, sm);
    ExtractAgreesWithEnumerator(stem, sm);
    ExtractAgreesWithEnumerator(stem, sm');
  }

  lemma EndsInEngine(name: string, sm: string)
    requires MatchesSmSuffix(name, sm)
    ensures HasSuffix(name, ENGINE) && name == name[..|name| - |ENGINE|] + ENGINE
  {
    var suffix := "_" + sm + ENGINE;
    assert name[|name| - |ENGINE|..] == name[|name| - |suffix|..][|suffix| - |ENGINE|..] == ENGINE;
  }

  // ---- nvidia-smi output ----

  /** Unicode White_Space, as Rust trims it. */
  predicate IsSpace(c: char) {
    var n := c as int;
    || 0x09 <= n <= 0x0D || n == 0x20 || n == 0x85 || n == 0xA0 || n == 0x1680
    || 0x2000 <= n <= 0x200A || n == 0x2028 || n == 0x2029 || n == 0x202F || n == 0x205F || n == 0x3000
  }

  function TrimStart(s: string): (t: string)
    ensures t == [] || !IsSpace(t[0])
  {
    if s != [] && IsSpace(s[0]) then TrimStart(s[1..]) else s
  }

  function TrimEnd(s: string): string {
    if s != [] && IsSpace(s[|s| - 1]) then TrimEnd(s[..|s| - 1]) else s
  }

  function Trim(s: string): string { TrimEnd(TrimStart(s)) }

  predicate Blank(s: string) { forall i :: 0 <= i < |s| ==> IsSpace(s[i]) }

  /** No space at either end. */
  predicate Tight(s: string) { s != [] ==> !IsSpace(s[0]) && !IsSpace(s[|s| - 1]) }

  predicate Surrounds(s: string, before: string, t: string, after: string) {
    s == before + t + after && Blank(before) && Blank(after) && Tight(t) && (t == [] ==> after == [])
  }

  /** Trimming takes away the spaces around the text, all of them and nothing else. */
  lemma TrimIff(s: string, t: string)
    ensures Trim(s) == t <==> exists before, after :: Surrounds(s, before, t, after)
  {
    TrimSurrounds(s);
    if before, after :| Surrounds(s, before, t, after) {
      SurroundedTrims(s, before, t, after);
    }
  }

  lemma TrimSurrounds(s: string)
    ensures exists before, after :: Surrounds(s, before, Trim(s), after)
  {
    var start, t := TrimStart(s), Trim(s);
    var front := SplitStart(s);
    var back := SplitEnd(start);
    assert s == front + (t + back);
    hide IsSpace, TrimEnd;
    if t == [] {
      assert start == back;
      StartsTight(s);
      assert start == [];
      assert front + [] + [] == front;
      assert Surrounds(s, front, t, []);
    } else {
      assert start[0] == t[0];
      assert front + (t + back) == front + t + back;
      assert Surrounds(s, front, t, back);
    }
  }

  lemma StartsTight(s: string)
    ensures Blank(TrimStart(s)) ==> TrimStart(s) == []
  {}

  lemma SurroundedTrims(s: string, before: string, t: string, after: string)
    requires Surrounds(s, before, t, after)
    ensures Trim(s) == t
  {
    hide IsSpace;
    assert before + t + after == before + (t + after);
    if t != [] {
      assert (t + after)[0] == t[0];
      SkipStart(before, t + after);
      SkipEnd(t, after);
    } else {
      assert t + after == [];
      SkipStart(before, []);
    }
  }

  lemma {:induction false} SplitStart(s: string) returns (front: string)
    ensures Blank(front) && s == front + TrimStart(s)
  {
    if s != [] && IsSpace(s[0]) {
      var rest := SplitStart(s[1..]);
      front := [s[0]] + rest;
    } else {
      front := [];
    }
  }

  lemma {:induction false} SplitEnd(s: string) returns (back: string)
    ensures Blank(back) && s == TrimEnd(s) + back
    ensures TrimEnd(s) != [] ==> !IsSpace(TrimEnd(s)[|TrimEnd(s)| - 1])
  {
    if s != [] && IsSpace(s[|s| - 1]) {
      var rest := SplitEnd(s[..|s| - 1]);
      back := rest + [s[|s| - 1]];
    } else {
      back := [];
    }
  }

  lemma {:induction false} SkipStart(front: string, s: string)
    requires Blank(front) && (s == [] || !IsSpace(s[0]))
    ensures TrimStart(front + s) == s
  {
    if front == [] {
      assert front + s == s;
    } else {
      assert (front + s)[1..] == front[1..] + s;
      SkipStart(front[1..], s);
    }
  }

  lemma {:induction false} SkipEnd(s: string, back: string)
    requires Blank(back) && s != [] && !IsSpace(s[|s| - 1])
    ensures TrimEnd(s + back) == s
  {
    if back == [] {
      assert s + back == s;
    } else {
      assert (s + back)[..|s + back| - 1] == s + back[..|back| - 1];
      SkipEnd(s, back[..|back| - 1]);
    }
  }

  /** The text up to the first c, and what follows it. */
  function SplitOnce(s: string, c: char): (r: Option<(string, string)>)
    ensures r.Some? ==> s == r.value.0 + [c] + r.value.1 && c !in r.value.0
    ensures r.None? ==> c !in s
  {
    if s == [] then None
    else if s[0] == c then Some(([], s[1..]))
    else
      var rest := SplitOnce(s[1..], c);
      if rest.None? then None else Some(([s[0]] + rest.value.0, rest.value.1))
  }

  /** The first line that is not blank, trimmed. */
  function FirstLine(s: string): Option<string>
    decreases |s|
  {
    var cut := SplitOnce(s, '\n');
    var line := if cut.Some? then cut.value.0 else s;
    if Trim(line) != [] then Some(Trim(line))
    else if cut.None? then None
    else FirstLine(cut.value.1)
  }

  /** The text is blank lines, then this line, then nothing or a line end and anything. */
  predicate LineAt(s: string, before: string, line: string, after: string) {
    && s == before + line + after && '\n' !in line
    && Blank(before) && (before == [] || before[|before| - 1] == '\n')
    && (after == [] || after[0] == '\n')
  }

  lemma {:induction false} SplitThere(x: string, c: char, y: string)
    requires c !in x
    ensures SplitOnce(x + [c] + y, c) == Some((x, y))
  {
    var s := x + [c] + y;
    if x == [] {
      assert s[1..] == y;
    } else {
      assert s[1..] == x[1..] + [c] + y;
      SplitThere(x[1..], c, y);
      assert [x[0]] + x[1..] == x;
    }
  }

  lemma BlankTrims(s: string)
    requires Blank(s)
    ensures Trim(s) == []
  {
    assert s + [] + [] == s;
    assert Surrounds(s, s, [], []);
    TrimIff(s, []);
  }

  /** After blank lines the first line that is not blank is found. */
  lemma {:induction false} FirstLineThere(s: string, before: string, line: string, after: string)
    requires LineAt(s, before, line, after) && Trim(line) != []
    ensures FirstLine(s) == Some(Trim(line))
    decreases |before|
  {
    if before == [] {
      if after == [] {
        assert s == line;
      } else {
        assert s == line + ['\n'] + after[1..];
        SplitThere(line, '\n', after[1..]);
      }
    } else {
      var blank, rest := NextBlank(before);
      BlankTrims(blank);
      assert s == blank + ['\n'] + (rest + line + after);
      SplitThere(blank, '\n', rest + line + after);
      FirstLineThere(rest + line + after, rest, line, after);
    }
  }

  /** Blank lines begin with a blank line and go on with blank lines. */
  lemma NextBlank(lines: string) returns (blank: string, rest: string)
    requires lines != [] && Blank(lines) && lines[|lines| - 1] == '\n'
    ensures lines == blank + ['\n'] + rest && '\n' !in blank && Blank(blank) && Blank(rest)
    ensures rest != [] ==> rest[|rest| - 1] == '\n'
  {
    assert '\n' in lines;
    var cut := SplitOnce(lines, '\n').value;
    blank, rest := cut.0, cut.1;
    assert forall i :: 0 <= i < |blank| ==> blank[i] == lines[i];
    assert forall i :: 0 <= i < |rest| ==> rest[i] == lines[|blank| + 1 + i];
    assert rest != [] ==> rest[|rest| - 1] == lines[|lines| - 1];
  }

  lemma {:induction false} FirstLineFound(s: string) returns (before: string, line: string, after: string)
    requires FirstLine(s).Some?
    ensures LineAt(s, before, line, after) && Trim(line) == FirstLine(s).value != []
    decreases |s|
  {
    var cut := SplitOnce(s, '\n');
    line := if cut.Some? then cut.value.0 else s;
    if Trim(line) != [] {
      before, after := [], if cut.Some? then ['\n'] + cut.value.1 else [];
      assert s == [] + line + after;
    } else {
      var blank := line;
      TrimsBlank(blank);
      hide Trim, IsSpace;
      before, line, after := FirstLineFound(cut.value.1);
      OneMoreLine(s, blank, cut.value.1, before, line, after);
      before := blank + ['\n'] + before;
    }
  }

  lemma TrimsBlank(s: string)
    requires Trim(s) == []
    ensures Blank(s)
  {
    TrimIff(s, []);
    var x, y :| Surrounds(s, x, [], y);
    assert s == x;
  }

  lemma OneMoreLine(s: string, blank: string, rest: string, before: string, line: string, after: string)
    requires s == blank + ['\n'] + rest && Blank(blank) && LineAt(rest, before, line, after)
    ensures LineAt(s, blank + ['\n'] + before, line, after)
  {
    assert s == blank + ['\n'] + before + line + after;
    assert IsSpace('\n');
    hide IsSpace;
  }

  /** The line read is the first that is not blank, without its surrounding spaces. */
  lemma FirstLineIff(s: string, t: string)
    requires t != []
    ensures FirstLine(s) == Some(t) <==> exists before, line, after :: LineAt(s, before, line, after) && Trim(line) == t
  {
    if FirstLine(s) == Some(t) {
      var before, line, after := FirstLineFound(s);
      assert LineAt(s, before, line, after) && Trim(line) == t;
    }
    if before, line, after :| LineAt(s, before, line, after) && Trim(line) == t {
      FirstLineThere(s, before, line, after);
    }
  }

  function ParseComputeCapability(stdout: string): Option<string> {
    var line := FirstLine(stdout);
    if line.None? then None
    else
      var parts := SplitOnce(line.value, '.');
      if parts.None? then None
      else
        var (major, minor) := parts.value;
        if major == [] || minor == [] || !AllDigits(major) || !AllDigits(minor) then None
        else Some("sm" + major + minor)
  }

  /** Whatever is parsed is a well-formed tag, so everything proved of such tags applies to it. */
  lemma ParsedTagWellFormed(stdout: string)
    ensures ParseComputeCapability(stdout).Some? ==> WellFormedTag(ParseComputeCapability(stdout).value)
  {
    var parsed := ParseComputeCapability(stdout);
    if parsed.Some? {
      var (major, minor) := SplitOnce(FirstLine(stdout).value, '.').value;
      assert parsed.value[2..] == major + minor;
    }
  }

  predicate Version(line: string, major: string, minor: string) {
    major != [] && minor != [] && AllDigits(major) && AllDigits(minor) && line == major + "." + minor
  }

  /** The first non-blank line is two dot-separated digit strings, and the tag joins them. */
  ghost predicate NamesTag(stdout: string, tag: string) {
    FirstLine(stdout).Some? && exists major, minor :: Version(FirstLine(stdout).value, major, minor) && tag == "sm" + major + minor
  }

  lemma ParsesExactlyVersions(stdout: string, tag: string)
    ensures ParseComputeCapability(stdout) == Some(tag) <==> NamesTag(stdout, tag)
  {
    if FirstLine(stdout).Some? {
      var line := FirstLine(stdout).value;
      if ParseComputeCapability(stdout) == Some(tag) {
        var parts := SplitOnce(line, '.').value;
        assert Version(line, parts.0, parts.1);
      }
      if NamesTag(stdout, tag) {
        var major, minor :| Version(line, major, minor) && tag == "sm" + major + minor;
        SplitAtDot(line, major, minor);
      }
    }
  }

  lemma {:induction false} SplitAtDot(line: string, major: string, minor: string)
    requires AllDigits(major) && line == major + "." + minor
    ensures SplitOnce(line, '.') == Some((major, minor))
  {
    if major == [] {
      assert line[1..] == minor;
    } else {
      assert line[1..] == major[1..] + "." + minor;
      SplitAtDot(line[1..], major[1..], minor);
      assert [line[0]] + major[1..] == major;
    }
  }
}
