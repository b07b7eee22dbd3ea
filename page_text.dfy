/** The clean-up that ends `_extract_page_content` in
    src/core/internet_search.py: split the page text on whitespace, join the
    words with single spaces, replace whitespace runs by one space, and strip;
    empty text yields no content. Whitespace is Python's `str.isspace`, which
    `str.split()`, `\s` in a `str` pattern and `str.strip()` all use. */
module PageText {

  import opened Common

  /** Python's `str.isspace` for one character. */
  predicate IsSpace(c: char) {
    var n := c as int;
    || n == 0x20 || 0x09 <= n <= 0x0D || 0x1C <= n <= 0x1F
    || n == 0x85 || n == 0xA0 || n == 0x1680 || 0x2000 <= n <= 0x200A
    || n == 0x2028 || n == 0x2029 || n == 0x202F || n == 0x205F || n == 0x3000
  }

  predicate NoSpace(w: string) {
    forall i :: 0 <= i < |w| ==> !IsSpace(w[i])
  }

  /** What `str.split()` can return: non-empty words without whitespace. */
  predicate WellFormed(ws: seq<string>) {
    forall k :: 0 <= k < |ws| ==> ws[k] != [] && NoSpace(ws[k])
  }

  /** Normalised text: every whitespace character is a single ' ' with a
      non-whitespace character on each side, so the text neither starts nor
      ends with whitespace and holds no whitespace run. */
  predicate Clean(t: string) {
    forall i :: 0 <= i < |t| && IsSpace(t[i]) ==>
      t[i] == ' ' && 0 < i < |t| - 1 && !IsSpace(t[i - 1]) && !IsSpace(t[i + 1])
  }

  /** The length of the word `s` starts with. */
  function WordLength(s: string): (n: nat)
    ensures n <= |s|
    ensures s != [] && !IsSpace(s[0]) ==> n >= 1
    ensures forall i :: 0 <= i < n ==> !IsSpace(s[i])
    ensures n < |s| ==> IsSpace(s[n])
  {
    if s == [] || IsSpace(s[0]) then 0 else 1 + WordLength(s[1..])
  }

  /** `str.split()` with no separator. */
  function Words(s: string): seq<string>
    decreases |s|
  {
    if s == [] then []
    else if IsSpace(s[0]) then Words(s[1..])
    else [s[..WordLength(s)]] + Words(s[WordLength(s)..])
  }

  /** `' '.join(ws)`. */
  function Join(ws: seq<string>): string {
    if ws == [] then []
    else if |ws| == 1 then ws[0]
    else ws[0] + " " + Join(ws[1..])
  }

  /** Drops leading whitespace (`lstrip()`). */
  function SkipSpaces(s: string): (r: string)
    ensures |r| <= |s|
  {
    if s != [] && IsSpace(s[0]) then SkipSpaces(s[1..]) else s
  }

  /** Drops trailing whitespace (`rstrip()`). */
  function StripEnd(s: string): string {
    if s != [] && IsSpace(s[|s| - 1]) then StripEnd(s[..|s| - 1]) else s
  }

  /** `str.strip()`. */
  function Strip(s: string): string {
    StripEnd(SkipSpaces(s))
  }

  /** `re.sub(r'\s+', ' ', s)`. */
  function Collapse(s: string): string
    decreases |s|
  {
    if s == [] then []
    else if IsSpace(s[0]) then " " + Collapse(SkipSpaces(s[1..]))
    else [s[0]] + Collapse(s[1..])
  }

  /** The normalisation chain: `None` when the text is empty after collapsing.
      Its result is exactly the words of `s` joined by single spaces, so the
      collapse and the strip find nothing left to do. */
  function Normalize(s: string): (r: Option<string>)
    ensures r == if Words(s) == [] then None else Some(Join(Words(s)))
  {
    WordsWellFormed(s);
    JoinClean(Words(s));
    CollapseSingleSpaced(Join(Words(s)));
    var content := Collapse(Join(Words(s)));
    if content == [] then None else Some(Strip(content))
  }

  lemma {:induction false} WordsWellFormed(s: string)
    ensures WellFormed(Words(s))
    decreases |s|
  {
    if s != [] {
      if IsSpace(s[0]) {
        WordsWellFormed(s[1..]);
      } else {
        var n := WordLength(s);
        WordsWellFormed(s[n..]);
      }
    }
  }

  /** `split()` finds no word exactly in whitespace-only text. */
  lemma {:induction false} WordsEmpty(s: string)
    ensures Words(s) == [] <==> forall i :: 0 <= i < |s| ==> IsSpace(s[i])
    decreases |s|
  {
    if s != [] {
      if IsSpace(s[0]) {
        WordsEmpty(s[1..]);
        if forall i :: 0 <= i < |s[1..]| ==> IsSpace(s[1..][i]) {
          forall i | 0 <= i < |s| ensures IsSpace(s[i]) {
            if i > 0 {
              assert s[i] == s[1..][i - 1];
            }
          }
        }
      }
    }
  }

  lemma {:induction false} WordLengthOf(w: string, rest: string)
    requires NoSpace(w)
    requires rest == [] || IsSpace(rest[0])
    ensures WordLength(w + rest) == |w|
    decreases |w|
  {
    if w == [] {
      assert w + rest == rest;
    } else {
      assert (w + rest)[1..] == w[1..] + rest;
      WordLengthOf(w[1..], rest);
    }
  }

  lemma WordsOfWordThen(w: string, rest: string)
    requires w != [] && NoSpace(w)
    requires rest == [] || IsSpace(rest[0])
    ensures Words(w + rest) == [w] + Words(rest)
  {
    WordLengthOf(w, rest);
    assert (w + rest)[..|w|] == w;
    assert (w + rest)[|w|..] == rest;
  }

  /** Splitting joined words gives the words back. */
  lemma {:induction false} WordsJoin(ws: seq<string>)
    requires WellFormed(ws)
    ensures Words(Join(ws)) == ws
    decreases |ws|
  {
    if |ws| == 1 {
      WordsOfWordThen(ws[0], []);
      assert ws[0] + [] == ws[0];
    } else if |ws| > 1 {
      var tail := Join(ws[1..]);
      WordsJoin(ws[1..]);
      assert ws[0] + " " + tail == ws[0] + (" " + tail);
      WordsOfWordThen(ws[0], " " + tail);
      assert (" " + tail)[1..] == tail;
    }
  }

  /** Joined well-formed words are clean text, empty only for no words. */
  lemma {:induction false} JoinClean(ws: seq<string>)
    requires WellFormed(ws)
    ensures Clean(Join(ws))
    ensures Join(ws) == [] <==> ws == []
    ensures ws != [] ==> !IsSpace(Join(ws)[0]) && !IsSpace(Join(ws)[|Join(ws)| - 1])
    decreases |ws|
  {
    if |ws| > 1 {
      var w := ws[0];
      var tail := Join(ws[1..]);
      JoinClean(ws[1..]);
      var t := Join(ws);
      assert t == w + " " + tail;
      forall i | 0 <= i < |t| && IsSpace(t[i])
        ensures t[i] == ' ' && 0 < i < |t| - 1 && !IsSpace(t[i - 1]) && !IsSpace(t[i + 1])
      {
        if i > |w| {
          assert t[i] == tail[i - |w| - 1];
          assert t[i - 1] == (if i - 1 == |w| then ' ' else tail[i - |w| - 2]);
          assert i + 1 < |t| ==> t[i + 1] == tail[i - |w|];
        }
      }
    }
  }

  lemma {:induction false} SkipNothing(s: string)
    requires s == [] || !IsSpace(s[0])
    ensures SkipSpaces(s) == s
  {
  }

  /** Every whitespace character is a ' ' followed by a non-whitespace one:
      true of every suffix of clean text. */
  predicate SingleSpaced(t: string) {
    forall i :: 0 <= i < |t| && IsSpace(t[i]) ==> t[i] == ' ' && (i + 1 < |t| ==> !IsSpace(t[i + 1]))
  }

  lemma {:induction false} CollapseSingleSpaced(t: string)
    requires SingleSpaced(t)
    ensures Collapse(t) == t
    decreases |t|
  {
    if t != [] {
      assert SingleSpaced(t[1..]) by {
        forall i | 0 <= i < |t[1..]| && IsSpace(t[1..][i])
          ensures t[1..][i] == ' ' && (i + 1 < |t[1..]| ==> !IsSpace(t[1..][i + 1]))
        {
          assert t[1..][i] == t[i + 1];
        }
      }
      CollapseSingleSpaced(t[1..]);
      if IsSpace(t[0]) {
        SkipNothing(t[1..]);
        assert t == " " + t[1..];
      } else {
        assert t == [t[0]] + t[1..];
      }
    }
  }

  /** Normalisation yields `None` exactly for whitespace-only text, and
      otherwise clean, non-empty text with the same words. */
  lemma NormalizeSpec(s: string)
    ensures Normalize(s).None? <==> forall i :: 0 <= i < |s| ==> IsSpace(s[i])
    ensures Normalize(s).Some? ==> var t := Normalize(s).value;
      t != [] && Clean(t) && Words(t) == Words(s)
  {
    WordsEmpty(s);
    WordsWellFormed(s);
    JoinClean(Words(s));
    WordsJoin(Words(s));
  }

  /** Normalising normalised text changes nothing. */
  lemma NormalizeIdempotent(s: string)
    requires Normalize(s).Some?
    ensures Normalize(Normalize(s).value) == Normalize(s)
  {
    var t := Normalize(s).value;
    NormalizeSpec(s);
  }
}
