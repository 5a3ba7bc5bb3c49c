/** The LLM-text cleanup `text.strip("```").strip()` of app.py (lines 66 and 78),
    and the blank-question test `not user_question.strip()` (line 87).

    Python's `str.strip(chars)` reads its argument as a SET of characters: it
    removes every leading and every trailing character in the set, however many
    there are. `str.strip()` with no argument does the same for whitespace. */
module TextCleanup {
  import opened Results

  /** The set `"```"` given to `strip`: a single character, the backtick. */
  predicate IsBacktick(c: char) {
    c == '`'
  }

  /** Python's `str.isspace` for one code point: the characters `str.strip()` removes. */
  predicate IsWhitespace(c: char) {
    || ('\t' <= c <= '\r')
    || ('\U{1C}' <= c <= '\U{1F}')
    || c == ' '
    || c == '\U{85}'
    || c == '\U{A0}'
    || c == '\U{1680}'
    || ('\U{2000}' <= c <= '\U{200A}')
    || c == '\U{2028}'
    || c == '\U{2029}'
    || c == '\U{202F}'
    || c == '\U{205F}'
    || c == '\U{3000}'
  }

  /** Whether `strip(chars)` removes `c`: `chars` is read as a set of characters,
      and no argument (None) means whitespace. */
  predicate Stripped(c: char, chars: Option<string>) {
    match chars
    case None => IsWhitespace(c)
    case Some(given) => c in given
  }

  /** The left scan of `strip`: the first index at or after `i` whose character is kept. */
  function KeptFrom(s: string, chars: Option<string>, i: nat): (k: nat)
    requires i <= |s|
    ensures i <= k <= |s|
    ensures forall j :: i <= j < k ==> Stripped(s[j], chars)
    ensures k == |s| || !Stripped(s[k], chars)
    decreases |s| - i
  {
    if i < |s| && Stripped(s[i], chars) then KeptFrom(s, chars, i + 1) else i
  }

  /** The right scan of `strip`: `j` moved left past stripped characters, never below `lo`. */
  function KeptUntil(s: string, chars: Option<string>, lo: nat, j: nat): (k: nat)
    requires lo <= j <= |s|
    ensures lo <= k <= j
    ensures forall i :: k <= i < j ==> Stripped(s[i], chars)
    ensures k == lo || !Stripped(s[k - 1], chars)
    decreases j
  {
    if lo < j && Stripped(s[j - 1], chars) then KeptUntil(s, chars, lo, j - 1) else j
  }

  /** `r` is the run of `s` starting at index `lo`. */
  predicate SliceAt(s: string, lo: int, r: string) {
    0 <= lo <= |s| - |r| && forall i :: 0 <= i < |r| ==> r[i] == s[lo + i]
  }

  /** `r` is the run of `s` at `lo`, and every character of `s` around it is one `strip(chars)` removes. */
  predicate TrimmedAt(s: string, lo: int, r: string, chars: Option<string>) {
    && SliceAt(s, lo, r)
    && (forall i :: 0 <= i < lo ==> Stripped(s[i], chars))
    && (forall i :: lo + |r| <= i < |s| ==> Stripped(s[i], chars))
  }

  /** `s.strip(chars)`: the contiguous middle of `s` left once both ends are trimmed. */
  function Strip(s: string, chars: Option<string>): (r: string)
    ensures exists lo :: TrimmedAt(s, lo, r, chars)
    ensures r == [] || (!Stripped(r[0], chars) && !Stripped(r[|r| - 1], chars))
  {
    var lo := KeptFrom(s, chars, 0);
    var hi := KeptUntil(s, chars, lo, |s|);
    assert TrimmedAt(s, lo, s[lo..hi], chars);
    s[lo..hi]
  }

  /** `text.strip("```").strip()`: what the query generator and the summariser
      keep of an LLM reply. */
  function Clean(text: string): (r: string)
    ensures r == [] || (!IsWhitespace(r[0]) && !IsWhitespace(r[|r| - 1]))
    ensures exists lo :: SliceAt(text, lo, r)
  {
    var t := Strip(text, Some("```"));
    var r := Strip(t, None);
    StripOfStripIsSlice(text, t, Some("```"), r, None);
    r
  }

  /** Stripping twice still leaves a contiguous run of the original text. */
  lemma {:induction false} StripOfStripIsSlice(s: string, t: string, chars: Option<string>, r: string, chars': Option<string>)
    requires exists lo :: TrimmedAt(s, lo, t, chars)
    requires exists lo :: TrimmedAt(t, lo, r, chars')
    ensures exists lo :: SliceAt(s, lo, r)
  {
    var lo1 :| TrimmedAt(s, lo1, t, chars);
    var lo2 :| TrimmedAt(t, lo2, r, chars');
    forall i | 0 <= i < |r| ensures r[i] == s[lo1 + lo2 + i] {
      assert r[i] == t[lo2 + i];
    }
    assert SliceAt(s, lo1 + lo2, r);
  }

  /** `not question.strip()`: the question is empty once whitespace is stripped. */
  predicate IsBlank(question: string) {
    Strip(question, None) == []
  }

  /** `n` backticks in a row. */
  function Backticks(n: nat): (r: string)
    ensures |r| == n && forall i :: 0 <= i < n ==> IsBacktick(r[i])
  {
    if n == 0 then [] else Backticks(n - 1) + ['`']
  }

  /** Text whose ends are neither backticks nor whitespace. */
  predicate Tidy(s: string) {
    s == [] || (!IsBacktick(s[0]) && !IsWhitespace(s[0]) && !IsBacktick(s[|s| - 1]) && !IsWhitespace(s[|s| - 1]))
  }

  /** The contract of Strip determines its result: a run of `s` with stripped
      characters around it and kept characters at its ends is what `strip` returns. */
  lemma {:induction false} StripUnique(s: string, chars: Option<string>, lo: int, r: string)
    requires TrimmedAt(s, lo, r, chars)
    requires r == [] || (!Stripped(r[0], chars) && !Stripped(r[|r| - 1], chars))
    ensures Strip(s, chars) == r
  {
    var lo' := KeptFrom(s, chars, 0);
    var hi' := KeptUntil(s, chars, lo', |s|);
    if r != [] {
      assert s[lo] == r[0] && s[lo + |r| - 1] == r[|r| - 1];
      assert lo' == lo;
      assert hi' == lo + |r|;
      assert forall i :: 0 <= i < |r| ==> s[lo'..hi'][i] == s[lo + i];
    } else {
      assert forall i :: 0 <= i < |s| ==> Stripped(s[i], chars);
      assert lo' == |s|;
    }
  }

  /** `strip` removes exactly the flanks made of stripped characters, however long. */
  lemma {:induction false} StripFlanks(front: string, body: string, back: string, chars: Option<string>)
    requires forall i :: 0 <= i < |front| ==> Stripped(front[i], chars)
    requires forall i :: 0 <= i < |back| ==> Stripped(back[i], chars)
    requires body == [] || (!Stripped(body[0], chars) && !Stripped(body[|body| - 1], chars))
    ensures Strip(front + body + back, chars) == body
  {
    var s := front + body + back;
    assert TrimmedAt(s, |front|, body, chars);
    StripUnique(s, chars, |front|, body);
  }

  /** The cleanup removes every backtick at the very ends of the reply, any number
      of them, and then the whitespace the backticks enclosed. */
  lemma {:induction false} CleanRemovesOuterBackticks(n: nat, body: string, m: nat)
    requires body == [] || (!IsBacktick(body[0]) && !IsBacktick(body[|body| - 1]))
    ensures Clean(Backticks(n) + body + Backticks(m)) == Strip(body, None)
  {
    StripFlanks(Backticks(n), body, Backticks(m), Some("```"));
  }

  /** The cleanup leaves a text unchanged exactly when the text is already tidy. */
  lemma {:induction false} CleanFixedIffTidy(s: string)
    ensures Clean(s) == s <==> Tidy(s)
  {
    if Tidy(s) {
      TidyIsFixed(s);
    }
    if Clean(s) == s {
      FixedIsTidy(s);
    }
  }

  /** Tidy text has nothing for either pass to remove. */
  lemma {:induction false} TidyIsFixed(s: string)
    requires Tidy(s)
    ensures Clean(s) == s
  {
    assert s == [] + s + [];
    StripFlanks([], s, [], Some("```"));
    StripFlanks([], s, [], None);
  }

  /** Text the cleanup leaves unchanged had nothing removed by the backtick pass
      either, so neither of its ends is a backtick or whitespace. */
  lemma {:induction false} FixedIsTidy(s: string)
    requires Clean(s) == s
    ensures Tidy(s)
  {
    if s != [] {
      var t := Strip(s, Some("```"));
      var lo :| TrimmedAt(t, lo, Clean(s), None);
      var lo' :| TrimmedAt(s, lo', t, Some("```"));
      assert |t| == |s| && lo' == 0;
      assert t == s;
    }
  }

  /** A backtick left at the start of the cleaned text sat behind whitespace: the
      backtick pass stopped at that whitespace, and the whitespace pass then
      exposed the backtick. */
  lemma {:induction false} LeadingBacktickSatBehindWhitespace(text: string)
    requires Clean(text) != [] && IsBacktick(Clean(text)[0])
    ensures var t := Strip(text, Some("```")); t != [] && IsWhitespace(t[0])
  {
    var t := Strip(text, Some("```"));
    var r := Clean(text);
    var lo :| TrimmedAt(t, lo, r, None);
    assert r[0] == t[lo];
    assert lo != 0;
  }

  /** The same at the other end: a trailing backtick of the cleaned text sat
      in front of whitespace. */
  lemma {:induction false} TrailingBacktickSatBehindWhitespace(text: string)
    requires Clean(text) != [] && IsBacktick(Clean(text)[|Clean(text)| - 1])
    ensures var t := Strip(text, Some("```")); t != [] && IsWhitespace(t[|t| - 1])
  {
    var t := Strip(text, Some("```"));
    var r := Clean(text);
    var lo :| TrimmedAt(t, lo, r, None);
    LastKeptBacktick(t, lo, r);
  }

  /** A run of `t` that ends in a backtick cannot end `t` when `t` itself does not
      end in one; the characters after the run are whitespace. */
  lemma {:induction false} LastKeptBacktick(t: string, lo: int, r: string)
    requires TrimmedAt(t, lo, r, None) && r != [] && IsBacktick(r[|r| - 1])
    requires t == [] || !Stripped(t[|t| - 1], Some("```"))
    ensures t != [] && IsWhitespace(t[|t| - 1])
  {
    var k := |r| - 1;
    assert t[lo + k] == r[k];
    assert "```"[0] == t[lo + k];
  }

  /** A reply built in layers (backticks, whitespace, a core that starts and ends
      with neither, whitespace, backticks) is cleaned down to its core. */
  lemma {:induction false} CleanPeelsLayers(ticks: string, spaces: string, core: string, spaces': string, ticks': string)
    requires forall i :: 0 <= i < |ticks| ==> IsBacktick(ticks[i])
    requires forall i :: 0 <= i < |ticks'| ==> IsBacktick(ticks'[i])
    requires forall i :: 0 <= i < |spaces| ==> IsWhitespace(spaces[i])
    requires forall i :: 0 <= i < |spaces'| ==> IsWhitespace(spaces'[i])
    requires core == [] || (!IsWhitespace(core[0]) && !IsWhitespace(core[|core| - 1]))
    requires var inner := spaces + core + spaces';
             inner == [] || (!IsBacktick(inner[0]) && !IsBacktick(inner[|inner| - 1]))
    ensures Clean(ticks + spaces + core + spaces' + ticks') == core
  {
    var inner := spaces + core + spaces';
    assert ticks + spaces + core + spaces' + ticks' == ticks + inner + ticks';
    StripFlanks(ticks, inner, ticks', Some("```"));
    StripFlanks(spaces, core, spaces', None);
  }

  /** Whitespace between two fences stops the backtick pass: the inner fence is
      left at the start of the cleaned text. */
  lemma {:induction false} InnerFenceSurvives(body: string)
    requires body != [] && Tidy(body)
    ensures Clean("```\n```" + body) == "```" + body
  {
    assert "```\n```" + body == "```" + "\n" + ("```" + body) + [] + [];
    CleanPeelsLayers("```", "\n", "```" + body, [], []);
  }

  /** A fence glued to tidy text is removed entirely. */
  lemma {:induction false} GluedFenceRemoved(body: string)
    requires body != [] && Tidy(body)
    ensures Clean("```" + body) == body
  {
    assert "```" + body == "```" + [] + body + [] + [];
    CleanPeelsLayers("```", [], body, [], []);
  }

  /** A fence, a newline, then a fence glued to the text: one cleanup leaves the
      inner fence, a second cleanup removes it. So the cleanup is not idempotent,
      and its output can still begin with three backticks. */
  lemma {:induction false} CleanIsNotIdempotent(body: string)
    requires body != [] && Tidy(body)
    ensures Clean("```\n```" + body) == "```" + body
    ensures Clean(Clean("```\n```" + body)) == body != Clean("```\n```" + body)
  {
    InnerFenceSurvives(body);
    GluedFenceRemoved(body);
    assert |"```" + body| != |body|;
  }

  /** A fenced reply with a language tag keeps the tag: only backticks and
      whitespace are removed, never the word after the opening fence. */
  lemma {:induction false} CleanKeepsLanguageTag(tag: string, query: string)
    requires tag != [] && !IsWhitespace(tag[0]) && !IsBacktick(tag[0])
    requires query != [] && !IsWhitespace(query[|query| - 1]) && !IsBacktick(query[|query| - 1])
    ensures Clean("```" + tag + "\n" + query + "\n```") == tag + "\n" + query
  {
    var core := tag + "\n" + query;
    assert core[0] == tag[0] && core[|core| - 1] == query[|query| - 1];
    assert "```" + tag + "\n" + query + "\n```" == "```" + [] + core + "\n" + "```";
    CleanPeelsLayers("```", [], core, "\n", "```");
  }

  /** A question is blank exactly when every character of it is whitespace. */
  lemma {:induction false} BlankIffAllWhitespace(question: string)
    ensures IsBlank(question) <==> forall i :: 0 <= i < |question| ==> IsWhitespace(question[i])
  {
    if forall i :: 0 <= i < |question| ==> IsWhitespace(question[i]) {
      assert question == question + [] + [];
      StripFlanks(question, [], [], None);
    }
    if IsBlank(question) {
      var lo :| TrimmedAt(question, lo, [], None);
    }
  }
}
