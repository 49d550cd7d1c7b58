/** Extracting a YouTube video id from a pasted link (src/lib/youtube.ts). Each
    of the four link shapes is an unanchored search for a fixed prefix followed by
    exactly eleven id characters; the first shape that matches anywhere wins, and
    within a shape the leftmost match wins. */
module YouTube {
  import opened Optional

  /** Length of a video id. */
  const IdLength: nat := 11

  const WatchPrefix: string := "youtube.com/watch?v="
  const ShortPrefix: string := "youtu.be/"
  const ShortsPrefix: string := "youtube.com/shorts/"
  const EmbedPrefix: string := "youtube.com/embed/"

  /** A character of `[a-zA-Z0-9_-]`. */
  predicate IsIdChar(c: char) {
    ('a' <= c <= 'z') || ('A' <= c <= 'Z') || ('0' <= c <= '9') || c == '_' || c == '-'
  }

  /** Eleven id characters. */
  predicate IsVideoId(s: string) {
    |s| == IdLength && forall i :: 0 <= i < |s| ==> IsIdChar(s[i])
  }

  /** The white space and line terminators that `String.prototype.trim` removes. */
  predicate IsJsWhitespace(c: char) {
    var n := c as int;
    (9 <= n <= 13) || n == 0x20 || n == 0xA0 || n == 0x1680 || (0x2000 <= n <= 0x200A)
    || n == 0x2028 || n == 0x2029 || n == 0x202F || n == 0x205F || n == 0x3000 || n == 0xFEFF
  }

  predicate AllWhitespace(s: string) {
    forall i :: 0 <= i < |s| ==> IsJsWhitespace(s[i])
  }

  function TrimStart(s: string): (r: string)
    ensures |r| <= |s|
    ensures r == [] || !IsJsWhitespace(r[0])
  {
    if |s| > 0 && IsJsWhitespace(s[0]) then TrimStart(s[1..]) else s
  }

  function TrimEnd(s: string): (r: string)
    ensures |r| <= |s|
  {
    if |s| > 0 && IsJsWhitespace(s[|s| - 1]) then TrimEnd(s[..|s| - 1]) else s
  }

  /** `trim()`: white space removed from both ends. */
  function Trim(s: string): (r: string)
    ensures |r| <= |s|
    ensures r == [] || (!IsJsWhitespace(r[0]) && !IsJsWhitespace(r[|r| - 1]))
  {
    TrimEndKeepsStart(TrimStart(s));
    TrimEnd(TrimStart(s))
  }

  lemma {:induction false} TrimEndKeepsStart(s: string)
    requires s == [] || !IsJsWhitespace(s[0])
    ensures var r := TrimEnd(s); r == [] || (!IsJsWhitespace(r[0]) && !IsJsWhitespace(r[|r| - 1]))
  {
    if |s| > 0 && IsJsWhitespace(s[|s| - 1]) {
      var t := s[..|s| - 1];
      TrimEndKeepsStart(t);
    }
  }

  /** Trimming the front removes a white-space prefix and nothing else. */
  lemma {:induction false} TrimStartDropsLeadingWhitespace(s: string)
    ensures var r := TrimStart(s); r == s[|s| - |r|..] && AllWhitespace(s[..|s| - |r|])
    decreases |s|
  {
    if |s| > 0 && IsJsWhitespace(s[0]) {
      TrimStartDropsLeadingWhitespace(s[1..]);
      var r := TrimStart(s);
      assert r == s[1..][|s| - 1 - |r|..];
      assert s[..|s| - |r|] == [s[0]] + s[1..][..|s| - 1 - |r|];
    }
  }

  /** Trimming the end removes a white-space suffix and nothing else. */
  lemma {:induction false} TrimEndDropsTrailingWhitespace(s: string)
    ensures var r := TrimEnd(s); r == s[..|r|] && AllWhitespace(s[|r|..])
    decreases |s|
  {
    if |s| > 0 && IsJsWhitespace(s[|s| - 1]) {
      var t := s[..|s| - 1];
      TrimEndDropsTrailingWhitespace(t);
      var r := TrimEnd(s);
      assert r == t[..|r|];
      assert s[|r|..] == t[|r|..] + [s[|s| - 1]];
    }
  }

  /** `trim()` keeps a contiguous middle part of its input and removes only white
      space around it. */
  lemma TrimIsSlice(s: string)
    ensures var a := |s| - |TrimStart(s)|; var b := a + |Trim(s)|;
      && a <= b <= |s|
      && Trim(s) == s[a..b]
      && AllWhitespace(s[..a]) && AllWhitespace(s[b..])
  {
    var t := TrimStart(s);
    TrimStartDropsLeadingWhitespace(s);
    TrimEndDropsTrailingWhitespace(t);
    var a := |s| - |t|;
    var r := Trim(s);
    assert r == TrimEnd(t);
    assert t[|r|..] == s[a + |r|..];
  }

  /** The pattern `prefix([a-zA-Z0-9_-]{11})` matches `s` starting at `i`. */
  predicate MatchAt(s: string, prefix: string, i: nat) {
    i + |prefix| + IdLength <= |s| && s[i..i + |prefix|] == prefix && IsVideoId(s[i + |prefix|..i + |prefix| + IdLength])
  }

  /** The pattern matches somewhere in `s`. */
  ghost predicate HasMatch(s: string, prefix: string) {
    exists i: nat :: MatchAt(s, prefix, i)
  }

  /** The position of the leftmost match at or after `from`. */
  function Search(s: string, prefix: string, from: nat): (r: Option<nat>)
    ensures r.Some? ==> from <= r.value && MatchAt(s, prefix, r.value)
    ensures r.Some? ==> forall k: nat :: from <= k < r.value ==> !MatchAt(s, prefix, k)
    ensures r.None? ==> forall k: nat :: from <= k ==> !MatchAt(s, prefix, k)
    decreases |s| - from
  {
    if from + |prefix| + IdLength > |s| then None
    else if MatchAt(s, prefix, from) then Some(from)
    else Search(s, prefix, from + 1)
  }

  /** `s.match(/prefix([a-zA-Z0-9_-]{11})/)?.[1]`: the id captured by the leftmost
      match, if any. */
  function MatchId(s: string, prefix: string): (r: Option<string>)
    ensures r.Some? <==> HasMatch(s, prefix)
    ensures r.Some? ==> IsVideoId(r.value)
    ensures forall i: nat :: MatchAt(s, prefix, i) && (forall k: nat :: k < i ==> !MatchAt(s, prefix, k)) ==>
      r == Some(s[i + |prefix|..i + |prefix| + IdLength])
  {
    match Search(s, prefix, 0)
    case None => None
    case Some(i) =>
      assert MatchAt(s, prefix, i);
      Some(s[i + |prefix|..i + |prefix| + IdLength])
  }

  /** `extractVideoId`: `None` for null or undefined, for blank input, and for
      input with no link shape in it. */
  function ExtractVideoId(url: Option<string>): (r: Option<string>)
    ensures r.Some? ==> IsVideoId(r.value)
    ensures r.Some? <==> (url.Some? &&
      (|| HasMatch(Trim(url.value), WatchPrefix) || HasMatch(Trim(url.value), ShortPrefix)
       || HasMatch(Trim(url.value), ShortsPrefix) || HasMatch(Trim(url.value), EmbedPrefix)))
    ensures url.Some? && HasMatch(Trim(url.value), WatchPrefix) ==> r == MatchId(Trim(url.value), WatchPrefix)
    ensures url.Some? && !HasMatch(Trim(url.value), WatchPrefix) && HasMatch(Trim(url.value), ShortPrefix) ==>
      r == MatchId(Trim(url.value), ShortPrefix)
    ensures (url.Some? && !HasMatch(Trim(url.value), WatchPrefix) && !HasMatch(Trim(url.value), ShortPrefix)
             && HasMatch(Trim(url.value), ShortsPrefix)) ==> r == MatchId(Trim(url.value), ShortsPrefix)
    ensures (url.Some? && !HasMatch(Trim(url.value), WatchPrefix) && !HasMatch(Trim(url.value), ShortPrefix)
             && !HasMatch(Trim(url.value), ShortsPrefix)) ==> r == MatchId(Trim(url.value), EmbedPrefix)
  {
    if url.None? then None
    else
      var trimmed := Trim(url.value);
      if trimmed == [] then
        assert forall p, i: nat :: !MatchAt(trimmed, p, i);
        None
      else
        var watch := MatchId(trimmed, WatchPrefix);
        if watch.Some? then watch
        else
          var short := MatchId(trimmed, ShortPrefix);
          if short.Some? then short
          else
            var shorts := MatchId(trimmed, ShortsPrefix);
            if shorts.Some? then shorts
            else MatchId(trimmed, EmbedPrefix)
  }

  lemma {:induction false} TrimStartSkipsWhitespace(w: string, x: string)
    requires AllWhitespace(w)
    ensures TrimStart(w + x) == TrimStart(x)
    decreases |w|
  {
    if w != [] {
      assert (w + x)[1..] == w[1..] + x;
      TrimStartSkipsWhitespace(w[1..], x);
    } else {
      assert w + x == x;
    }
  }

  lemma {:induction false} TrimEndSkipsWhitespace(x: string, w: string)
    requires AllWhitespace(w)
    ensures TrimEnd(x + w) == TrimEnd(x)
    decreases |w|
  {
    if w != [] {
      var w' := w[..|w| - 1];
      assert (x + w)[..|x + w| - 1] == x + w';
      TrimEndSkipsWhitespace(x, w');
    } else {
      assert x + w == x;
    }
  }

  lemma {:induction false} TrimStartConcat(x: string, y: string)
    ensures TrimStart(x + y) == if TrimStart(x) == [] then TrimStart(y) else TrimStart(x) + y
    decreases |x|
  {
    if x == [] {
      assert x + y == y;
    } else if IsJsWhitespace(x[0]) {
      assert (x + y)[1..] == x[1..] + y;
      TrimStartConcat(x[1..], y);
    }
  }

  /** Surrounding white space does not change the trimmed text. */
  lemma TrimIgnoresSurroundingWhitespace(w1: string, s: string, w2: string)
    requires AllWhitespace(w1) && AllWhitespace(w2)
    ensures Trim(w1 + s + w2) == Trim(s)
  {
    assert w1 + s + w2 == w1 + (s + w2);
    TrimStartSkipsWhitespace(w1, s + w2);
    TrimStartConcat(s, w2);
    if TrimStart(s) == [] {
      TrimStartSkipsWhitespace(w2, []);
      assert w2 + [] == w2;
    } else {
      TrimEndSkipsWhitespace(TrimStart(s), w2);
    }
  }

  /** Leading and trailing white space does not change the extracted id. */
  lemma ExtractIgnoresSurroundingWhitespace(w1: string, s: string, w2: string)
    requires AllWhitespace(w1) && AllWhitespace(w2)
    ensures ExtractVideoId(Some(w1 + s + w2)) == ExtractVideoId(Some(s))
  {
    TrimIgnoresSurroundingWhitespace(w1, s, w2);
  }

  /** Missing, empty and blank input has no id. */
  lemma BlankHasNoId(s: string)
    requires AllWhitespace(s)
    ensures ExtractVideoId(Some(s)) == None && ExtractVideoId(None) == None
  {
    TrimStartSkipsWhitespace(s, []);
    assert s + [] == s;
  }

  /** A match spells out its prefix. */
  lemma MatchSpellsPrefix(s: string, prefix: string, i: nat, j: nat)
    requires MatchAt(s, prefix, i) && j < |prefix|
    ensures s[i + j] == prefix[j]
  {
    assert s[i..i + |prefix|][j] == s[i + j];
  }

  /** A text that starts and ends with an id character is its own trim. */
  lemma TrimOfTrimmed(s: string)
    requires |s| > 0 && !IsJsWhitespace(s[0]) && !IsJsWhitespace(s[|s| - 1])
    ensures Trim(s) == s
  {
  }

  /** The short link `https://youtu.be/ID` yields `ID`. */
  lemma ShortLink(id: string)
    requires IsVideoId(id)
    ensures ExtractVideoId(Some("https://youtu.be/" + id)) == Some(id)
  {
    var s := "https://youtu.be/" + id;
    TrimOfTrimmed(s);
    assert !HasMatch(s, WatchPrefix);
    assert MatchAt(s, ShortPrefix, 8) by {
      assert s[8..17] == ShortPrefix;
      assert s[17..28] == id;
    }
    forall k: nat | k < 8 && MatchAt(s, ShortPrefix, k) ensures false {
      MatchSpellsPrefix(s, ShortPrefix, k, 0);
    }
    assert s[17..28] == id;
  }

  /** The canonical watch link yields its id. */
  lemma WatchLink(id: string)
    requires IsVideoId(id)
    ensures ExtractVideoId(Some("https://www.youtube.com/watch?v=" + id)) == Some(id)
  {
    var s := "https://www.youtube.com/watch?v=" + id;
    TrimOfTrimmed(s);
    assert MatchAt(s, WatchPrefix, 12) by {
      assert s[12..32] == WatchPrefix;
      assert s[32..43] == id;
    }
    forall k: nat | k < 12 && MatchAt(s, WatchPrefix, k) ensures false {
      MatchSpellsPrefix(s, WatchPrefix, k, 0);
    }
    assert s[32..43] == id;
  }

  /** The watch link without `www.` yields its id as well. */
  lemma BareWatchLink(id: string)
    requires IsVideoId(id)
    ensures ExtractVideoId(Some("https://youtube.com/watch?v=" + id)) == Some(id)
  {
    var s' := "https://youtube.com/watch?v=" + id;
    TrimOfTrimmed(s');
    assert MatchAt(s', WatchPrefix, 8) by {
      assert s'[8..28] == WatchPrefix;
      assert s'[28..39] == id;
    }
    forall k: nat | k < 8 && MatchAt(s', WatchPrefix, k) ensures false {
      MatchSpellsPrefix(s', WatchPrefix, k, 0);
    }
    assert s'[28..39] == id;
  }

  /** The shorts link yields its id: neither the watch nor the short-link shape
      occurs in it. */
  lemma ShortsLink(id: string)
    requires IsVideoId(id)
    ensures ExtractVideoId(Some("https://www.youtube.com/shorts/" + id)) == Some(id)
  {
    var s := "https://www.youtube.com/shorts/" + id;
    TrimOfTrimmed(s);
    assert forall k :: 0 <= k < 31 && k != 12 ==> s[k] != 'y';
    forall k: nat | MatchAt(s, WatchPrefix, k) ensures false {
      MatchSpellsPrefix(s, WatchPrefix, k, 0);
    }
    forall k: nat | MatchAt(s, ShortPrefix, k) ensures false {
      MatchSpellsPrefix(s, ShortPrefix, k, 0);
      MatchSpellsPrefix(s, ShortPrefix, k, 5);
    }
    assert MatchAt(s, ShortsPrefix, 12) by {
      assert s[12..31] == ShortsPrefix;
      assert s[31..42] == id;
    }
    forall k: nat | k < 12 && MatchAt(s, ShortsPrefix, k) ensures false {
      MatchSpellsPrefix(s, ShortsPrefix, k, 0);
    }
    assert s[31..42] == id;
  }

  /** The embed link yields its id: none of the three earlier shapes occurs in it. */
  lemma EmbedLink(id: string)
    requires IsVideoId(id)
    ensures ExtractVideoId(Some("https://www.youtube.com/embed/" + id)) == Some(id)
  {
    var s := "https://www.youtube.com/embed/" + id;
    TrimOfTrimmed(s);
    assert forall k :: 0 <= k < 30 && k != 12 ==> s[k] != 'y';
    forall k: nat | MatchAt(s, WatchPrefix, k) ensures false {
      MatchSpellsPrefix(s, WatchPrefix, k, 0);
    }
    forall k: nat | MatchAt(s, ShortPrefix, k) ensures false {
      MatchSpellsPrefix(s, ShortPrefix, k, 0);
      MatchSpellsPrefix(s, ShortPrefix, k, 5);
    }
    forall k: nat | MatchAt(s, ShortsPrefix, k) ensures false {
      MatchSpellsPrefix(s, ShortsPrefix, k, 0);
    }
    assert MatchAt(s, EmbedPrefix, 12) by {
      assert s[12..30] == EmbedPrefix;
      assert s[30..41] == id;
    }
    forall k: nat | k < 12 && MatchAt(s, EmbedPrefix, k) ensures false {
      MatchSpellsPrefix(s, EmbedPrefix, k, 0);
    }
    assert s[30..41] == id;
  }

  /** Links of none of the four shapes, or with a too short id, yield nothing. */
  lemma RejectedLinks()
    ensures ExtractVideoId(Some("https://example.com")) == None
    ensures ExtractVideoId(Some("https://www.youtube.com/watch?v=short")) == None
  {
    var s := "https://example.com";
    TrimOfTrimmed(s);
    assert |s| < |ShortPrefix| + IdLength;
    assert forall p: string, k: nat :: |p| >= |ShortPrefix| ==> !MatchAt(s, p, k);
    var s' := "https://www.youtube.com/watch?v=short";
    TrimOfTrimmed(s');
    assert |s'| == 37;
    assert forall k :: 0 <= k < 18 && k != 12 ==> s'[k] != 'y';
    forall k: nat | MatchAt(s', ShortPrefix, k) ensures false {
      MatchSpellsPrefix(s', ShortPrefix, k, 0);
      MatchSpellsPrefix(s', ShortPrefix, k, 5);
    }
    forall k: nat, p | p in {WatchPrefix, ShortsPrefix, EmbedPrefix} && MatchAt(s', p, k) ensures false {
      MatchSpellsPrefix(s', p, k, 0);
    }
  }
}
