/** The string handling of the invaders highscore table
    (scripts/invaders.js:50-58, 71-73): HTML escaping of player names, the
    JavaScript `trim`, and the name clean-up of `saveHighscore`. */
module InvadersText {

  // ---------------------------------------------------------------------
  // escapeHtml

  /** The five characters `escapeHtml` replaces. */
  predicate IsSpecial(c: char)
  {
    c == '&' || c == '<' || c == '>' || c == '"' || c == '\''
  }

  /** The four characters that never survive escaping (`&` does survive, as
      the start of every entity). */
  predicate IsMarkup(c: char)
  {
    c == '<' || c == '>' || c == '"' || c == '\''
  }

  /** The entity each special character becomes; any other character stays. */
  function EscapeChar(c: char): (r: string)
    ensures IsSpecial(c) ==> |r| >= 4 && r[0] == '&' && r[|r| - 1] == ';'
    ensures !IsSpecial(c) ==> r == [c]
    ensures forall i :: 0 <= i < |r| ==> !IsMarkup(r[i])
  {
    match c
    case '&' => "&amp;"
    case '<' => "&lt;"
    case '>' => "&gt;"
    case '"' => "&quot;"
    case '\'' => "&#39;"
    case _ => [c]
  }

  /** `escapeHtml`: every special character replaced by its entity, left to
      right. The result holds no `<`, `>`, `"` or `'`, and a string without
      special characters comes back unchanged. */
  function EscapeHtml(s: string): (r: string)
    ensures forall i :: 0 <= i < |r| ==> !IsMarkup(r[i])
    ensures (forall i :: 0 <= i < |s| ==> !IsSpecial(s[i])) ==> r == s
    ensures |r| >= |s|
    decreases |s|
  {
    if |s| == 0 then []
    else EscapeChar(s[0]) + EscapeHtml(s[1..])
  }

  /** The decoder of the five entities, the partner of `EscapeHtml`. */
  function UnescapeHtml(s: string): string
    decreases |s|
  {
    if |s| == 0 then []
    else if s[0] != '&' then [s[0]] + UnescapeHtml(s[1..])
    else if |s| >= 5 && s[..5] == "&amp;" then "&" + UnescapeHtml(s[5..])
    else if |s| >= 4 && s[..4] == "&lt;" then "<" + UnescapeHtml(s[4..])
    else if |s| >= 4 && s[..4] == "&gt;" then ">" + UnescapeHtml(s[4..])
    else if |s| >= 6 && s[..6] == "&quot;" then "\"" + UnescapeHtml(s[6..])
    else if |s| >= 5 && s[..5] == "&#39;" then "'" + UnescapeHtml(s[5..])
    else [s[0]] + UnescapeHtml(s[1..])
  }

  /** Decoding undoes the escape of one character in front of any text. */
  lemma UnescapeChar(c: char, rest: string)
    ensures UnescapeHtml(EscapeChar(c) + rest) == [c] + UnescapeHtml(rest)
  {
    var t := EscapeChar(c) + rest;
    if !IsSpecial(c) {
      assert t[0] == c && t[1..] == rest;
    } else if c == '&' {
      assert t[..5] == "&amp;" && t[5..] == rest;
    } else if c == '<' {
      assert t[1] == 'l';
      assert t[..4] == "&lt;" && t[4..] == rest;
    } else if c == '>' {
      assert t[1] == 'g';
      assert t[..4] == "&gt;" && t[4..] == rest;
    } else if c == '"' {
      assert t[1] == 'q';
      assert t[..6] == "&quot;" && t[6..] == rest;
    } else {
      assert t[1] == '#';
      assert t[..5] == "&#39;" && t[5..] == rest;
    }
  }

  /** Escaping loses nothing: decoding the escaped text gives the original,
      so distinct names stay distinct once escaped. */
  lemma {:induction false} EscapeRoundTrip(s: string)
    ensures UnescapeHtml(EscapeHtml(s)) == s
    decreases |s|
  {
    if |s| > 0 {
      EscapeRoundTrip(s[1..]);
      UnescapeChar(s[0], EscapeHtml(s[1..]));
      assert [s[0]] + s[1..] == s;
    }
  }

  /** Escaping is injective. */
  lemma EscapeInjective(s: string, t: string)
    requires EscapeHtml(s) == EscapeHtml(t)
    ensures s == t
  {
    EscapeRoundTrip(s);
    EscapeRoundTrip(t);
  }

  /** Escaping works character by character, so it distributes over
      concatenation. */
  lemma {:induction false} EscapeConcat(s: string, t: string)
    ensures EscapeHtml(s + t) == EscapeHtml(s) + EscapeHtml(t)
    decreases |s|
  {
    if |s| > 0 {
      assert (s + t)[0] == s[0] && (s + t)[1..] == s[1..] + t;
      EscapeConcat(s[1..], t);
    } else {
      assert s + t == t;
    }
  }

  /** Each special character on its own maps to its named or numeric entity. */
  lemma EscapeEntities()
    ensures EscapeHtml("&") == "&amp;" && EscapeHtml("<") == "&lt;" && EscapeHtml(">") == "&gt;"
    ensures EscapeHtml("\"") == "&quot;" && EscapeHtml("'") == "&#39;"
  {
    assert "&"[1..] == [] && "<"[1..] == [] && ">"[1..] == [] && "\""[1..] == [] && "'"[1..] == [];
  }

  // ---------------------------------------------------------------------
  // String.prototype.trim

  /** The white space and line terminators JavaScript's `trim` removes. */
  predicate IsJsSpace(c: char)
  {
    c == '\t' || c == '\n' || c == '\U{000B}' || c == '\U{000C}' || c == '\r' || c == ' '
    || c == '\U{00A0}' || c == '\U{1680}' || ('\U{2000}' <= c <= '\U{200A}')
    || c == '\U{2028}' || c == '\U{2029}' || c == '\U{202F}' || c == '\U{205F}'
    || c == '\U{3000}' || c == '\U{FEFF}'
  }

  /** Drop leading white space: the result is a suffix that starts with a
      non-space, and everything dropped is white space. */
  function TrimStart(s: string): (r: string)
    ensures |r| <= |s| && r == s[|s| - |r|..]
    ensures forall k :: 0 <= k < |s| - |r| ==> IsJsSpace(s[k])
    ensures |r| == 0 || !IsJsSpace(r[0])
    decreases |s|
  {
    if |s| > 0 && IsJsSpace(s[0]) then TrimStart(s[1..]) else s
  }

  /** Drop trailing white space: the result is a prefix that ends with a
      non-space, and everything dropped is white space. */
  function TrimEnd(s: string): (r: string)
    ensures |r| <= |s| && r == s[..|r|]
    ensures forall k :: |r| <= k < |s| ==> IsJsSpace(s[k])
    ensures |r| == 0 || !IsJsSpace(r[|r| - 1])
    decreases |s|
  {
    if |s| > 0 && IsJsSpace(s[|s| - 1]) then TrimEnd(s[..|s| - 1]) else s
  }

  /** `trim`: both ends. */
  function Trim(s: string): string
  {
    TrimEnd(TrimStart(s))
  }

  /** A string trims to nothing exactly when it is all white space. */
  lemma TrimEmptyIffBlank(s: string)
    ensures Trim(s) == [] <==> forall k :: 0 <= k < |s| ==> IsJsSpace(s[k])
  {
    var a := TrimStart(s);
    if Trim(s) == [] {
      assert |a| == 0;
    } else {
      assert |a| > 0 && !IsJsSpace(a[0]) && a[0] == s[|s| - |a|];
    }
  }

  /** A string with no white space at either end is its own trim. */
  lemma TrimKeepsClean(s: string)
    requires |s| > 0 && !IsJsSpace(s[0]) && !IsJsSpace(s[|s| - 1])
    ensures Trim(s) == s
  {
  }

  /** A trimmed non-empty string has no white space at either end, and
      trimming it again changes nothing. */
  lemma TrimIdempotent(s: string)
    ensures var t := Trim(s); |t| == 0 || (!IsJsSpace(t[0]) && !IsJsSpace(t[|t| - 1]))
    ensures Trim(Trim(s)) == Trim(s)
  {
    var a := TrimStart(s);
    var t := TrimEnd(a);
    if |t| > 0 {
      assert t[0] == a[0];
      TrimKeepsClean(t);
    } else {
      assert TrimStart(t) == [] && TrimEnd([]) == [];
    }
  }

  // ---------------------------------------------------------------------
  // The stored name

  const DefaultName: string := "Player"
  const MaxNameLength: nat := 24

  /** The first `n` characters, or all of them when there are fewer
      (`slice(0, n)`). */
  function Prefix(s: string, n: nat): (r: string)
    ensures |r| <= n && |r| <= |s| && r == s[..|r|]
    ensures |s| <= n ==> r == s
    ensures |s| >= n ==> |r| == n
  {
    if |s| <= n then s else s[..n]
  }

  /** `((name || 'Player').trim() || 'Player').slice(0, 24)`: the trimmed
      name cut to 24 characters, or "Player" when it is empty or blank. */
  function CleanName(name: string): (r: string)
    ensures 1 <= |r| <= MaxNameLength
    ensures !IsJsSpace(r[0])
    ensures Trim(name) == [] ==> r == DefaultName
    ensures Trim(name) != [] ==> r == Prefix(Trim(name), MaxNameLength)
  {
    var given := if name == [] then DefaultName else name;
    assert Trim(given) == (if name == [] then DefaultName else Trim(name)) by {
      TrimKeepsClean(DefaultName);
    }
    var clean := if Trim(given) == [] then DefaultName else Trim(given);
    TrimIdempotent(name);
    Prefix(clean, MaxNameLength)
  }

  /** The empty name and names of white space alone are stored as "Player". */
  lemma CleanNameBlank(name: string)
    requires forall k :: 0 <= k < |name| ==> IsJsSpace(name[k])
    ensures CleanName(name) == DefaultName
  {
    TrimEmptyIffBlank(name);
  }
}
