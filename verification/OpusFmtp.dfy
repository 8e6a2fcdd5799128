/**
 The rewriting of an Opus a=fmtp value: the parameters usedtx, stereo and (for stereo) maxaveragebitrate of
 section 6.1 of RFC 7587 are replaced, all others stay as they are. Text is ASCII.
 */
module OpusFmtp {
  // ---------------------------------------------------------------------------------------
  // Strings
  // ---------------------------------------------------------------------------------------

  function Before(s: string, sep: char): string {
    if s == "" || s[0] == sep then "" else [s[0]] + Before(s[1..], sep)
  }

  function After(s: string, sep: char): string {
    if s == "" then "" else if s[0] == sep then s[1..] else After(s[1..], sep)
  }

  function Split(s: string, sep: char): (r: seq<string>)
    ensures r != []
  {
    if s == "" then [""]
    else if s[0] == sep then [""] + Split(s[1..], sep)
    else
      var rest := Split(s[1..], sep);
      [[s[0]] + rest[0]] + rest[1..]
  }

  function Join(parts: seq<string>, sep: char): string {
    if parts == [] then "" else if |parts| == 1 then parts[0] else parts[0] + [sep] + Join(parts[1..], sep)
  }

  predicate IsSpace(c: char) { c in {' ', '\t', '\n', '\r', '\U{0B}', '\U{0C}'} }

  function TrimSpace(s: string): string {
    if s == "" then ""
    else if IsSpace(s[0]) then TrimSpace(s[1..])
    else if IsSpace(s[|s| - 1]) then TrimSpace(s[..|s| - 1])
    else s
  }

  function LowerChar(c: char): char { if 'A' <= c <= 'Z' then c - 'A' + 'a' else c }

  function ToLower(s: string): string { seq(|s|, i requires 0 <= i < |s| => LowerChar(s[i])) }

  lemma {:induction false} BeforeAfter(p: string, sep: char, rest: string)
    requires sep !in p
    ensures Before(p + [sep] + rest, sep) == p && After(p + [sep] + rest, sep) == rest
  {
    if p != "" {
      BeforeAfter(p[1..], sep, rest);
      assert (p + [sep] + rest)[1..] == p[1..] + [sep] + rest;
    }
  }

  lemma {:induction false} BeforeHasNone(s: string, sep: char)
    ensures sep !in Before(s, sep)
  {
    if s != "" && s[0] != sep {
      BeforeHasNone(s[1..], sep);
    }
  }

  lemma {:induction false} SplitFirst(p: string, sep: char, rest: string)
    requires sep !in p
    ensures Split(p, sep) == [p] && Split(p + [sep] + rest, sep) == [p] + Split(rest, sep)
  {
    if p == "" {
      assert p + [sep] + rest == [sep] + rest;
    } else {
      SplitFirst(p[1..], sep, rest);
      assert [p[0]] + p[1..] == p;
      assert (p + [sep] + rest)[1..] == p[1..] + [sep] + rest;
    }
  }

  lemma {:induction false} SplitHasNone(s: string, sep: char)
    ensures forall p :: p in Split(s, sep) ==> sep !in p
  {
    if s != "" {
      SplitHasNone(s[1..], sep);
    }
  }

  lemma {:induction false} SplitJoin(parts: seq<string>, sep: char)
    requires parts != [] && forall p :: p in parts ==> sep !in p
    ensures Split(Join(parts, sep), sep) == parts
  {
    if |parts| == 1 {
      SplitFirst(parts[0], sep, "");
    } else {
      SplitJoin(parts[1..], sep);
      SplitFirst(parts[0], sep, Join(parts[1..], sep));
    }
  }

  /** Joining undoes splitting. */
  lemma {:induction false} JoinSplit(s: string, sep: char)
    ensures Join(Split(s, sep), sep) == s
  {
    if s != "" {
      var rest := Split(s[1..], sep);
      JoinSplit(s[1..], sep);
      assert s == [s[0]] + s[1..];
      if s[0] == sep {
        assert ([""] + rest)[1..] == rest;
      } else {
        assert Join(Split(s, sep), sep) == [s[0]] + Join(rest, sep);
      }
    }
  }

  /** The text is what is before the first separator, that separator, and what is after it. */
  lemma {:induction false} BeforeAndAfter(s: string, sep: char)
    ensures sep in s ==> s == Before(s, sep) + [sep] + After(s, sep)
    ensures sep !in s ==> Before(s, sep) == s && After(s, sep) == ""
  {
    if s != "" {
      assert s == [s[0]] + s[1..];
      if s[0] != sep {
        BeforeAndAfter(s[1..], sep);
      }
    }
  }

  // ---------------------------------------------------------------------------------------
  // Names of parameters
  // ---------------------------------------------------------------------------------------

  predicate Blank(c: char) { c == ' ' || 9 <= c as int <= 13 }

  /** The character is this lower-case letter, in either case. */
  predicate SameLetter(c: char, letter: char) { c == letter || ('A' <= c <= 'Z' && letter as int == c as int + 32) }

  predicate AllBlank(s: string) { forall k :: 0 <= k < |s| ==> Blank(s[k]) }

  /** The text is the name, in any case. */
  predicate SameWord(s: string, name: string) {
    |s| == |name| && forall k :: 0 <= k < |s| ==> SameLetter(s[k], name[k])
  }

  /** The text is the name, in any case, between blanks. */
  ghost predicate Says(s: string, name: string) {
    exists i, j :: SaysAt(s, name, i, j)
  }

  predicate SaysAt(s: string, name: string, i: int, j: int) {
    0 <= i <= j <= |s| && AllBlank(s[..i]) && AllBlank(s[j..]) && SameWord(s[i..j], name)
  }

  /** The parameter has this name: up to its first equals sign, if any, it says the name. */
  ghost predicate HasName(param: string, name: string) {
    exists e :: 0 <= e <= |param| && '=' !in param[..e] && (e == |param| || param[e] == '=') && Says(param[..e], name)
  }

  lemma {:induction false} TrimLeaves(s: string) returns (i: nat, j: nat)
    ensures i <= j <= |s| && AllBlank(s[..i]) && AllBlank(s[j..]) && TrimSpace(s) == s[i..j]
  {
    if s == "" {
      i, j := 0, 0;
    } else if IsSpace(s[0]) {
      var a, b := TrimLeaves(s[1..]);
      i, j := a + 1, b + 1;
      assert s[..i] == [s[0]] + s[1..][..a] && s[j..] == s[1..][b..] && s[i..j] == s[1..][a..b];
    } else if IsSpace(s[|s| - 1]) {
      var init := s[..|s| - 1];
      i, j := TrimLeaves(init);
      assert s[j..] == init[j..] + [s[|s| - 1]] && s[..i] == init[..i] && s[i..j] == init[i..j];
    } else {
      i, j := 0, |s|;
      assert s[i..j] == s;
    }
  }

  /** Trimming leaves what stands between blanks and does not begin or end with one. */
  lemma {:induction false} TrimIs(s: string, i: nat, j: nat)
    requires i <= j <= |s| && AllBlank(s[..i]) && AllBlank(s[j..])
    requires i < j ==> !Blank(s[i]) && !Blank(s[j - 1])
    ensures TrimSpace(s) == s[i..j]
    decreases |s|
  {
    if i > 0 {
      assert Blank(s[..i][0]);
      assert s[1..][..i - 1] == s[..i][1..] && s[1..][j - 1..] == s[j..];
      TrimIs(s[1..], i - 1, j - 1);
      assert s[1..][i - 1..j - 1] == s[i..j];
    } else if j < |s| {
      var init := s[..|s| - 1];
      assert Blank(s[j..][|s| - 1 - j]);
      if j == 0 {
        assert Blank(s[j..][0]);
        assert s[1..] == s[j..][1..];
        TrimIs(s[1..], 0, 0);
      } else {
        assert init[j..] == s[j..][..|s| - 1 - j];
        TrimIs(init, 0, j);
        assert init[..j] == s[..j];
      }
    }
  }

  lemma WordIsKept(s: string, name: string)
    requires Plain(name)
    ensures SameWord(s, name) <==> ToLower(s) == name
    ensures SameWord(s, name) && s != "" ==> !Blank(s[0]) && !Blank(s[|s| - 1])
  {
  }

  lemma SaidIsTrimmed(s: string, name: string, i: int, j: int)
    requires Plain(name) && SaysAt(s, name, i, j)
    ensures ToLower(TrimSpace(s)) == name
  {
    var word := s[i..j];
    WordIsKept(word, name);
    if i < j {
      assert s[i] == word[0] && s[j - 1] == word[|word| - 1];
    }
    TrimIs(s, i, j);
  }

  lemma TrimmedIsSaid(s: string, name: string)
    requires Plain(name) && ToLower(TrimSpace(s)) == name
    ensures Says(s, name)
  {
    var i, j := TrimLeaves(s);
    WordIsKept(s[i..j], name);
    assert SaysAt(s, name, i, j);
  }

  lemma TrimmedSays(s: string, name: string)
    requires Plain(name)
    ensures ToLower(TrimSpace(s)) == name <==> Says(s, name)
  {
    if Says(s, name) {
      var i, j :| SaysAt(s, name, i, j);
      SaidIsTrimmed(s, name, i, j);
    } else if ToLower(TrimSpace(s)) == name {
      TrimmedIsSaid(s, name);
    }
  }

  lemma NameEnds(param: string, e: nat)
    requires e <= |param| && '=' !in param[..e] && (e == |param| || param[e] == '=')
    ensures Before(param, '=') == param[..e]
  {
    if e < |param| {
      BeforeAfter(param[..e], '=', param[e + 1..]);
      assert param == param[..e] + ['='] + param[e + 1..];
    } else {
      BeforeAndAfter(param, '=');
    }
  }

  /** The key looked at is the name of the parameter, whatever its case and the blanks around it. */
  lemma KeyIsName(param: string, name: string)
    requires Plain(name)
    ensures Key(param) == name <==> HasName(param, name)
  {
    var e := |Before(param, '=')|;
    BeforeHasNone(param, '=');
    BeforeAndAfter(param, '=');
    assert param[..e] == Before(param, '=') && (e == |param| || param[e] == '=');
    TrimmedSays(param[..e], name);
    if e' :| 0 <= e' <= |param| && '=' !in param[..e'] && (e' == |param| || param[e'] == '=')
             && Says(param[..e'], name) {
      NameEnds(param, e');
    }
  }

  // ---------------------------------------------------------------------------------------
  // The rewrite
  // ---------------------------------------------------------------------------------------

  const USEDTX := "usedtx"
  const STEREO := "stereo"
  const BITRATE := "maxaveragebitrate"

  const USEDTX_ON := USEDTX + "=1"
  const STEREO_ON := STEREO + "=1"
  const BITRATE_SET := BITRATE + "=510000"

  function PayloadType(value: string): string { Before(value, ' ') }

  function Params(value: string): seq<string> { Split(After(value, ' '), ';') }

  function Key(param: string): string { ToLower(TrimSpace(Before(param, '='))) }

  /** Parameters the rewrite does not touch. */
  predicate Untouched(param: string, stereo: bool) {
    Key(param) !in {"", USEDTX, STEREO} && !(stereo && Key(param) == BITRATE)
  }

  function Kept(params: seq<string>, stereo: bool): seq<string> {
    if params == [] then []
    else
      var last := params[|params| - 1];
      Kept(params[..|params| - 1], stereo) + if Untouched(last, stereo) then [last] else []
  }

  function Added(dtx: bool, stereo: bool): seq<string> {
    (if dtx then [USEDTX_ON] else []) + (if stereo then [STEREO_ON, BITRATE_SET] else [])
  }

  /** The parameters the rewritten value holds. */
  function Result(value: string, dtx: bool, stereo: bool): seq<string> {
    Kept(Params(value), stereo) + Added(dtx, stereo)
  }

  function Rewritten(value: string, dtx: bool, stereo: bool): string {
    PayloadType(value) + " " + Join(Result(value, dtx, stereo), ';')
  }

  /** The parameter has one of the names that are replaced, or none. */
  ghost predicate IsReplaced(param: string, stereo: bool) {
    || HasName(param, "") || HasName(param, "usedtx") || HasName(param, "stereo")
    || (stereo && HasName(param, "maxaveragebitrate"))
  }

  lemma UntouchedIff(param: string, stereo: bool)
    ensures Untouched(param, stereo) <==> !IsReplaced(param, stereo)
  {
    KeyIsName(param, "");
    KeyIsName(param, USEDTX);
    KeyIsName(param, STEREO);
    KeyIsName(param, BITRATE);
  }

  /** In order, the parameters at these places: all that are not replaced. */
  ghost predicate Leaves(kept: seq<string>, params: seq<string>, stereo: bool, at: seq<nat>) {
    && |at| == |kept| && (forall i, j :: 0 <= i < j < |at| ==> at[i] < at[j])
    && (forall i :: 0 <= i < |at| ==> at[i] < |params| && kept[i] == params[at[i]])
    && (forall k :: 0 <= k < |params| ==> (k in at <==> !IsReplaced(params[k], stereo)))
  }

  lemma LeavesNext(kept: seq<string>, params: seq<string>, stereo: bool, at: seq<nat>, p: string)
    requires Leaves(kept, params, stereo, at)
    ensures IsReplaced(p, stereo) ==> Leaves(kept, params + [p], stereo, at)
    ensures !IsReplaced(p, stereo) ==> Leaves(kept + [p], params + [p], stereo, at + [|params|])
  {
    assert forall k :: k in at + [|params|] <==> k in at || k == |params|;
    assert forall k :: 0 <= k < |params| ==> (params + [p])[k] == params[k];
    assert forall k :: k in at ==> k < |params|;
  }

  /** What the rewrite keeps of the parameters: exactly those that have another name, in order and as they are. */
  lemma {:induction false} KeptAreOthers(params: seq<string>, stereo: bool) returns (at: seq<nat>)
    ensures Leaves(Kept(params, stereo), params, stereo, at)
  {
    at := [];
    if params != [] {
      var init, last := params[..|params| - 1], params[|params| - 1];
      at := KeptAreOthers(init, stereo);
      LeavesNext(Kept(init, stereo), init, stereo, at, last);
      UntouchedIff(last, stereo);
      assert params == init + [last] && Kept(init, stereo) + [] == Kept(init, stereo);
      if !IsReplaced(last, stereo) {
        at := at + [|init|];
      }
    }
  }

  /** The value is its payload type and its parameters, between separators that do not occur in them. */
  lemma ValueIsItsParts(value: string)
    ensures ' ' in value ==> value == PayloadType(value) + " " + Join(Params(value), ';')
    ensures ' ' !in value ==> value == PayloadType(value) && Params(value) == [""]
    ensures ' ' !in PayloadType(value) && forall p :: p in Params(value) ==> ';' !in p
  {
    BeforeAndAfter(value, ' ');
    BeforeHasNone(value, ' ');
    JoinSplit(After(value, ' '), ';');
    SplitHasNone(After(value, ' '), ';');
  }

  lemma Spelled()
    ensures USEDTX_ON == "usedtx=1" && STEREO_ON == "stereo=1" && BITRATE_SET == "maxaveragebitrate=510000"
  {
  }

  /** The rewritten value: the payload type, and the parameters that are not replaced with what is asked for behind. */
  lemma RewrittenIs(value: string, dtx: bool, stereo: bool) returns (kept: seq<string>, at: seq<nat>)
    ensures Leaves(kept, Params(value), stereo, at)
    ensures Rewritten(value, dtx, stereo) == PayloadType(value) + " " +
              Join(kept + ((if dtx then ["usedtx=1"] else [])
                           + (if stereo then ["stereo=1", "maxaveragebitrate=510000"] else [])), ';')
  {
    kept := Kept(Params(value), stereo);
    at := KeptAreOthers(Params(value), stereo);
    Spelled();
    assert Added(dtx, stereo)
        == (if dtx then ["usedtx=1"] else []) + (if stereo then ["stereo=1", "maxaveragebitrate=510000"] else []);
  }

  lemma KeptNext(params: seq<string>, i: nat, stereo: bool)
    requires i < |params|
    ensures Kept(params[..i + 1], stereo)
            == Kept(params[..i], stereo) + if Untouched(params[i], stereo) then [params[i]] else []
  {
    assert params[..i + 1][..i] == params[..i];
  }

  /** The loop over the parameters. */
  method KeepParams(params: seq<string>, stereo: bool) returns (kept: seq<string>)
    ensures kept == Kept(params, stereo)
  {
    kept := [];
    for i := 0 to |params|
      invariant kept == Kept(params[..i], stereo)
    {
      KeptNext(params, i, stereo);
      var key := Key(params[i]);
      if key == "" || key == USEDTX || key == STEREO {
        continue;
      }
      if key == BITRATE && stereo {
        continue;
      }
      kept := kept + [params[i]];
    }
    assert params[..|params|] == params;
  }

  method RewriteOpusFmtp(value: string, dtx: bool, stereo: bool) returns (r: string, ok: bool)
    ensures r == Rewritten(value, dtx, stereo)
    ensures ok <==> dtx || stereo || exists p :: p in Params(value) && !IsReplaced(p, stereo)
  {
    forall p
      ensures Untouched(p, stereo) <==> !IsReplaced(p, stereo)
    {
      UntouchedIff(p, stereo);
    }
    var payloadType, params := PayloadType(value), Params(value);
    var kept := KeepParams(params, stereo);
    KeptMembers(params, stereo);
    assert kept != [] ==> kept[0] in kept;
    if dtx {
      kept := kept + [USEDTX_ON];
    }
    if stereo {
      kept := kept + [STEREO_ON, BITRATE_SET];
    }
    assert kept == Result(value, dtx, stereo);
    r, ok := payloadType + " " + Join(kept, ';'), |kept| > 0;
  }

  // ---------------------------------------------------------------------------------------
  // Filtering
  // ---------------------------------------------------------------------------------------

  lemma {:induction false} KeptMembers(params: seq<string>, stereo: bool)
    ensures forall p :: p in Kept(params, stereo) <==> p in params && Untouched(p, stereo)
  {
    if params != [] {
      KeptMembers(params[..|params| - 1], stereo);
      assert params == params[..|params| - 1] + [params[|params| - 1]];
    }
  }

  lemma {:induction false} KeptConcat(a: seq<string>, b: seq<string>, stereo: bool)
    ensures Kept(a + b, stereo) == Kept(a, stereo) + Kept(b, stereo)
  {
    if b == [] {
      assert a + b == a;
    } else {
      KeptConcat(a, b[..|b| - 1], stereo);
      assert (a + b)[..|a + b| - 1] == a + b[..|b| - 1];
    }
  }

  /** Filtering with the first flag and then a stricter one is filtering with the stricter one. */
  lemma {:induction false} KeptTwice(params: seq<string>, first: bool, second: bool)
    requires first ==> second
    ensures Kept(Kept(params, first), second) == Kept(params, second)
  {
    if params != [] {
      var init, last := params[..|params| - 1], params[|params| - 1];
      KeptTwice(init, first, second);
      KeptConcat(Kept(init, first), if Untouched(last, first) then [last] else [], second);
      KeptOne(last, second);
    }
  }

  lemma KeptOne(p: string, stereo: bool)
    ensures Kept([p], stereo) == if Untouched(p, stereo) then [p] else []
  {
    assert [p][..0] == [];
  }

  predicate Plain(k: string) { forall i :: 0 <= i < |k| ==> 'a' <= k[i] <= 'z' }

  lemma PlainKey(k: string, v: string)
    requires k != "" && Plain(k)
    ensures Key(k + "=" + v) == k
  {
    BeforeAfter(k, '=', v);
    assert k + "=" + v == k + ['='] + v;
    assert ToLower(k) == k;
  }

  lemma AddedKeys()
    ensures Key(USEDTX_ON) == USEDTX && Key(STEREO_ON) == STEREO && Key(BITRATE_SET) == BITRATE
  {
    assert USEDTX_ON == USEDTX + "=" + "1" && STEREO_ON == STEREO + "=" + "1"
        && BITRATE_SET == BITRATE + "=" + "510000";
    PlainKey(USEDTX, "1");
    PlainKey(STEREO, "1");
    PlainKey(BITRATE, "510000");
  }

  /** Of what the rewrite adds, a later one keeps at most the bitrate, and that only when it is not for stereo. */
  lemma AddedAgain(dtx: bool, first: bool, second: bool)
    ensures Kept(Added(dtx, first), second) == if first && !second then [BITRATE_SET] else []
  {
    AddedKeys();
    var d, s := if dtx then [USEDTX_ON] else [], if first then [STEREO_ON, BITRATE_SET] else [];
    KeptConcat(d, s, second);
    KeptOne(USEDTX_ON, second);
    if first {
      assert [STEREO_ON, BITRATE_SET] == [STEREO_ON] + [BITRATE_SET];
      KeptConcat([STEREO_ON], [BITRATE_SET], second);
      KeptOne(STEREO_ON, second);
      KeptOne(BITRATE_SET, second);
    }
  }

  // ---------------------------------------------------------------------------------------
  // Main results
  // ---------------------------------------------------------------------------------------

  lemma ResultHasNone(value: string, dtx: bool, stereo: bool)
    ensures forall p :: p in Result(value, dtx, stereo) ==> ';' !in p
  {
    SplitHasNone(After(value, ' '), ';');
    KeptMembers(Params(value), stereo);
    var d, s := if dtx then [USEDTX_ON] else [], if stereo then [STEREO_ON, BITRATE_SET] else [];
    assert forall p :: p in Added(dtx, stereo) ==> p in d || p in s;
    assert ';' !in USEDTX_ON && ';' !in STEREO_ON && ';' !in BITRATE_SET;
  }

  /** What is written can be read back: the payload type, and the parameters unless there are none. */
  lemma ReadsBack(value: string, dtx: bool, stereo: bool)
    ensures PayloadType(Rewritten(value, dtx, stereo)) == PayloadType(value)
    ensures var r := Result(value, dtx, stereo); Params(Rewritten(value, dtx, stereo)) == if r == [] then [""] else r
  {
    var r := Result(value, dtx, stereo);
    BeforeHasNone(value, ' ');
    BeforeAfter(PayloadType(value), ' ', Join(r, ';'));
    assert PayloadType(value) + " " + Join(r, ';') == PayloadType(value) + [' '] + Join(r, ';');
    ResultHasNone(value, dtx, stereo);
    if r != [] {
      SplitJoin(r, ';');
    }
  }

  lemma KeptOfResult(value: string, dtx1: bool, stereo1: bool, stereo2: bool)
    ensures Kept(Params(Rewritten(value, dtx1, stereo1)), stereo2) == Kept(Result(value, dtx1, stereo1), stereo2)
  {
    ReadsBack(value, dtx1, stereo1);
    KeptOne("", stereo2);
    assert Key("") == "";
  }

  /** A second rewrite decides alone, unless it turns stereo off again. */
  lemma LastRewriteDecides(value: string, dtx1: bool, stereo1: bool, dtx2: bool, stereo2: bool)
    requires stereo1 ==> stereo2
    ensures Rewritten(Rewritten(value, dtx1, stereo1), dtx2, stereo2) == Rewritten(value, dtx2, stereo2)
  {
    var params := Params(value);
    KeptOfResult(value, dtx1, stereo1, stereo2);
    KeptConcat(Kept(params, stereo1), Added(dtx1, stereo1), stereo2);
    KeptTwice(params, stereo1, stereo2);
    AddedAgain(dtx1, stereo1, stereo2);
    ReadsBack(value, dtx1, stereo1);
    assert Kept(params, stereo2) + [] == Kept(params, stereo2);
    assert Result(Rewritten(value, dtx1, stereo1), dtx2, stereo2) == Result(value, dtx2, stereo2);
  }

  /** Rewriting again with the same flags changes nothing. */
  lemma Idempotent(value: string, dtx: bool, stereo: bool)
    ensures Rewritten(Rewritten(value, dtx, stereo), dtx, stereo) == Rewritten(value, dtx, stereo)
  {
    LastRewriteDecides(value, dtx, stereo, dtx, stereo);
  }

  /** Turning stereo off again keeps the bitrate stereo had set, in place of the one there was before. */
  lemma BitrateOutlivesStereo(value: string, dtx1: bool, dtx2: bool)
    ensures Result(Rewritten(value, dtx1, true), dtx2, false)
        == Kept(Params(value), true) + [BITRATE_SET] + Added(dtx2, false)
  {
    var params := Params(value);
    KeptOfResult(value, dtx1, true, false);
    KeptConcat(Kept(params, true), Added(dtx1, true), false);
    AddedAgain(dtx1, true, false);
    KeptMembers(params, true);
    AllKept(Kept(params, true), false);
  }

  lemma SameStringSameParams(value: string, other: string, dtx1: bool, stereo1: bool, dtx2: bool, stereo2: bool)
    requires Rewritten(value, dtx1, stereo1) == Rewritten(other, dtx2, stereo2)
    requires Result(value, dtx1, stereo1) != [] && Result(value, dtx1, stereo1) != [""]
    ensures Result(value, dtx1, stereo1) == Result(other, dtx2, stereo2)
  {
    ReadsBack(value, dtx1, stereo1);
    ReadsBack(other, dtx2, stereo2);
  }

  /**
   A second rewrite decides alone if and only if it does not turn stereo off, or the value's own parameters already
   ended in the bitrate that stereo sets, and held no other.
   */
  lemma LastRewriteDecidesIff(value: string, dtx1: bool, stereo1: bool, dtx2: bool, stereo2: bool)
    ensures Rewritten(Rewritten(value, dtx1, stereo1), dtx2, stereo2) == Rewritten(value, dtx2, stereo2)
            <==> (stereo1 ==> stereo2) || Kept(Params(value), false) == Kept(Params(value), true) + [BITRATE_SET]
  {
    if stereo1 ==> stereo2 {
      LastRewriteDecides(value, dtx1, stereo1, dtx2, stereo2);
    } else {
      var first := Rewritten(value, dtx1, true);
      var a, b := Kept(Params(value), true) + [BITRATE_SET], Kept(Params(value), false);
      BitrateOutlivesStereo(value, dtx1, dtx2);
      ReadsBack(value, dtx1, true);
      assert Result(first, dtx2, false) == a + Added(dtx2, false)
          && Result(value, dtx2, false) == b + Added(dtx2, false);
      if Rewritten(first, dtx2, false) == Rewritten(value, dtx2, false) {
        var r := Result(first, dtx2, false);
        assert r[|a| - 1] == BITRATE_SET;
        SameStringSameParams(first, value, dtx2, false, dtx2, false);
        assert a == r[..|r| - |Added(dtx2, false)|] == b;
      }
    }
  }

  lemma {:induction false} AllKept(params: seq<string>, stereo: bool)
    requires forall p :: p in params ==> Untouched(p, stereo)
    ensures Kept(params, stereo) == params
  {
    if params != [] {
      AllKept(params[..|params| - 1], stereo);
    }
  }

  /** All other parameters keep their text and their order. */
  lemma OthersStay(value: string, dtx: bool, stereo: bool)
    ensures Kept(Params(Rewritten(value, dtx, stereo)), stereo) == Kept(Params(value), stereo)
  {
    var params := Params(value);
    KeptOfResult(value, dtx, stereo, stereo);
    KeptConcat(Kept(params, stereo), Added(dtx, stereo), stereo);
    KeptTwice(params, stereo, stereo);
    AddedAgain(dtx, stereo, stereo);
  }

  lemma FlagsByKey(value: string, dtx: bool, stereo: bool, p: string)
    requires p in Params(Rewritten(value, dtx, stereo))
    ensures Key(p) == USEDTX ==> dtx && p == USEDTX_ON
    ensures Key(p) == STEREO ==> stereo && p == STEREO_ON
    ensures stereo && Key(p) == BITRATE ==> p == BITRATE_SET
  {
    ReadsBack(value, dtx, stereo);
    KeptMembers(Params(value), stereo);
    AddedKeys();
    assert Key("") == "";
    var d, s := if dtx then [USEDTX_ON] else [], if stereo then [STEREO_ON, BITRATE_SET] else [];
    assert p in Added(dtx, stereo) ==> p in d || p in s;
  }

  /** usedtx and stereo are there exactly when asked for, as 1 only; for stereo the bitrate is the one set. */
  lemma FlagsAreAsAsked(value: string, dtx: bool, stereo: bool, p: string)
    requires p in Params(Rewritten(value, dtx, stereo))
    ensures HasName(p, "usedtx") ==> dtx && p == "usedtx=1"
    ensures HasName(p, "stereo") ==> stereo && p == "stereo=1"
    ensures stereo && HasName(p, "maxaveragebitrate") ==> p == "maxaveragebitrate=510000"
  {
    FlagsByKey(value, dtx, stereo, p);
    Spelled();
    NamesAreKeys(p);
  }

  lemma NamesAreKeys(p: string)
    ensures HasName(p, "usedtx") <==> Key(p) == USEDTX
    ensures HasName(p, "stereo") <==> Key(p) == STEREO
    ensures HasName(p, "maxaveragebitrate") <==> Key(p) == BITRATE
  {
    KeyIsName(p, USEDTX);
    KeyIsName(p, STEREO);
    KeyIsName(p, BITRATE);
  }

  lemma AskedIsThere(value: string, dtx: bool, stereo: bool)
    ensures dtx ==> USEDTX_ON in Params(Rewritten(value, dtx, stereo))
    ensures stereo ==> STEREO_ON in Params(Rewritten(value, dtx, stereo))
    ensures stereo ==> BITRATE_SET in Params(Rewritten(value, dtx, stereo))
  {
    ReadsBack(value, dtx, stereo);
    var added := Added(dtx, stereo);
    assert dtx ==> added[0] == USEDTX_ON;
    assert stereo ==> added[|added| - 2] == STEREO_ON && added[|added| - 1] == BITRATE_SET;
    assert forall q :: q in added ==> q in Result(value, dtx, stereo);
  }
}
