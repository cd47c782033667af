/** Thread slugs and mention tokens: two scanners, and the round trip between them. */
module Text {

  const MAX_SLUG_LEN := 80

  predicate IsUpper(c: char) {
    'A' <= c <= 'Z'
  }

  predicate IsLowerOrDigit(c: char) {
    'a' <= c <= 'z' || '0' <= c <= '9'
  }

  predicate IsAlphanumeric(c: char) {
    IsUpper(c) || IsLowerOrDigit(c)
  }

  function ToLower(c: char): char {
    if IsUpper(c) then (c as int + 32) as char else c
  }

  function Lower(s: string): (r: string)
    ensures |r| == |s|
  {
    seq(|s|, i requires 0 <= i < |s| => ToLower(s[i]))
  }

  /** The `White_Space` characters of Unicode, which `trim` strips. */
  predicate IsWhitespace(c: char) {
    var n := c as int;
    9 <= n <= 13 || n == 0x20 || n == 0x85 || n == 0xA0 || n == 0x1680 || 0x2000 <= n <= 0x200A ||
    n == 0x2028 || n == 0x2029 || n == 0x202F || n == 0x205F || n == 0x3000
  }

  // ---- slugs, by what they are made of ----

  /** The maximal runs of ASCII letters and digits, in lower case. */
  function Words(s: string): seq<string> {
    if s == [] then []
    else
      var n := |s| - 1;
      var words := Words(s[..n]);
      if !IsAlphanumeric(s[n]) then words
      else if words == [] || (n > 0 && !IsAlphanumeric(s[n - 1])) then words + [[ToLower(s[n])]]
      else words[|words| - 1 := words[|words| - 1] + [ToLower(s[n])]]
  }

  function Joined(words: seq<string>): string {
    if words == [] then ""
    else if |words| == 1 then words[0]
    else Joined(words[..|words| - 1]) + "-" + words[|words| - 1]
  }

  /** The slug before it is cut. */
  function FullSlug(title: string): string {
    Joined(Words(title))
  }

  function Slug(title: string): string {
    var full := FullSlug(title);
    if full == "" then "thread" else if |full| > MAX_SLUG_LEN then full[..MAX_SLUG_LEN] else full
  }

  // ---- the scanner ----

  function Trimmed(s: string): string {
    TrimmedEnd(TrimmedStart(s))
  }

  function TrimmedStart(s: string): string {
    if s != [] && IsWhitespace(s[0]) then TrimmedStart(s[1..]) else s
  }

  function TrimmedEnd(s: string): string {
    if s != [] && IsWhitespace(s[|s| - 1]) then TrimmedEnd(s[..|s| - 1]) else s
  }

  ghost predicate PlainWords(words: seq<string>) {
    forall i :: 0 <= i < |words| ==> words[i] != "" && forall c :: c in words[i] ==> IsLowerOrDigit(c)
  }

  lemma {:induction false} WordsArePlain(s: string)
    ensures PlainWords(Words(s))
    ensures Words(s) == [] <==> forall c :: c in s ==> !IsAlphanumeric(c)
  {
    if s != [] {
      WordsArePlain(s[..|s| - 1]);
      assert s == s[..|s| - 1] + [s[|s| - 1]];
    }
  }

  lemma {:induction false} JoinedNonEmpty(words: seq<string>)
    requires PlainWords(words) && words != []
    ensures Joined(words) != "" && IsLowerOrDigit(Joined(words)[|Joined(words)| - 1])
  {
    assert words[|words| - 1] != "";
    assert words[|words| - 1][|words[|words| - 1]| - 1] in words[|words| - 1];
  }

  /** A letter after a letter lengthens the last word; after anything else it starts one. */
  lemma {:induction false} JoinedOneMore(words: seq<string>, c: char)
    requires PlainWords(words)
    ensures words != [] ==> Joined(words + [[c]]) == Joined(words) + "-" + [c]
    ensures words == [] ==> Joined(words + [[c]]) == [c]
    ensures words != [] ==>
              Joined(words[|words| - 1 := words[|words| - 1] + [c]]) == Joined(words) + [c]
  {
    assert (words + [[c]])[..|words|] == words;
    if words != [] {
      var longer := words[|words| - 1 := words[|words| - 1] + [c]];
      assert longer[..|longer| - 1] == words[..|words| - 1];
    }
  }

  method Slugify(title: string) returns (slug: string)
    ensures slug == Slug(title)
  {
    hide Words, Joined;
    slug := "";
    var lastWasDash := false;
    var text := Trimmed(title);
    var n := 0;
    assert Words([]) == [] && Joined([]) == "" by {
      NoWords();
    }
    while n < |text|
      invariant 0 <= n <= |text|
      invariant lastWasDash <==> n > 0 && !IsAlphanumeric(text[n - 1]) && Words(text[..n]) != []
      invariant slug == Joined(Words(text[..n])) + (if lastWasDash then "-" else "")
    {
      var c := text[n];
      assert text[..n + 1] == text[..n] + [c];
      WordsOneMore(text[..n], c);
      WordsArePlain(text[..n]);
      JoinedOneMore(Words(text[..n]), ToLower(c));
      if Words(text[..n]) != [] {
        JoinedNonEmpty(Words(text[..n]));
      }
      if IsAlphanumeric(c) {
        slug := slug + [ToLower(c)];
        lastWasDash := false;
      } else if !lastWasDash && slug != "" {
        slug := slug + "-";
        lastWasDash := true;
      }
      n := n + 1;
    }
    assert text[..n] == text;
    WordsArePlain(text);
    if Words(text) != [] {
      JoinedNonEmpty(Words(text));
    }
    if slug != "" && slug[|slug| - 1] == '-' {
      slug := slug[..|slug| - 1];
    }
    assert slug == Joined(Words(text));
    TrimIsRedundant(title);
    if |slug| > MAX_SLUG_LEN {
      slug := slug[..MAX_SLUG_LEN];
    }
    if slug == "" {
      slug := "thread";
    }
  }

  lemma NoWords()
    ensures Words([]) == [] && Joined([]) == ""
  {
  }

  lemma {:induction false} WordsOneMore(s: string, c: char)
    ensures Words(s + [c]) ==
            if !IsAlphanumeric(c) then Words(s)
            else if Words(s) == [] || (s != [] && !IsAlphanumeric(s[|s| - 1])) then Words(s) + [[ToLower(c)]]
            else Words(s)[|Words(s)| - 1 := Words(s)[|Words(s)| - 1] + [ToLower(c)]]
  {
    assert (s + [c])[..|s|] == s;
  }

  /** Stripping white space first changes no slug. */
  lemma {:induction false} TrimIsRedundant(title: string)
    ensures Words(Trimmed(title)) == Words(title)
  {
    TrimStartIsRedundant(title);
    TrimEndIsRedundant(TrimmedStart(title));
  }

  lemma {:induction false} TrimEndIsRedundant(s: string)
    ensures Words(TrimmedEnd(s)) == Words(s)
  {
    if s != [] && IsWhitespace(s[|s| - 1]) {
      TrimEndIsRedundant(s[..|s| - 1]);
    }
  }

  lemma {:induction false} TrimStartIsRedundant(s: string)
    ensures Words(TrimmedStart(s)) == Words(s)
  {
    if s != [] && IsWhitespace(s[0]) {
      TrimStartIsRedundant(s[1..]);
      LeadingSeparator(s[0], s[1..]);
      assert s == [s[0]] + s[1..];
    }
  }

  lemma {:induction false} LeadingSeparator(c: char, s: string)
    requires !IsAlphanumeric(c)
    ensures Words([c] + s) == Words(s)
  {
    if s == [] {
      assert [c] + s == [] + [c];
      WordsOneMore([], c);
    } else {
      var n := |s| - 1;
      LeadingSeparator(c, s[..n]);
      assert [c] + s == ([c] + s[..n]) + [s[n]];
      assert s == s[..n] + [s[n]];
      WordsOneMore([c] + s[..n], s[n]);
      WordsOneMore(s[..n], s[n]);
      if n == 0 {
        assert s[..0] == [];
      }
    }
  }

  // ---- the shape of a slug ----

  predicate IsSlugChar(c: char) {
    IsLowerOrDigit(c) || c == '-'
  }

  /** Lower-case letters, digits and single inner hyphens; the end is another matter. */
  ghost predicate SlugShaped(s: string) {
    && (forall i :: 0 <= i < |s| ==> IsSlugChar(s[i]))
    && (s != "" ==> s[0] != '-')
    && (forall i :: 0 < i < |s| ==> !(s[i - 1] == '-' && s[i] == '-'))
  }

  lemma {:induction false} PlainIsShaped(word: string)
    requires forall c :: c in word ==> IsLowerOrDigit(c)
    ensures SlugShaped(word)
  {
    forall i | 0 <= i < |word|
      ensures IsLowerOrDigit(word[i])
    {
      assert word[i] in word;
    }
  }

  lemma {:induction false} JoinedIsShaped(words: seq<string>)
    requires PlainWords(words)
    ensures SlugShaped(Joined(words))
    ensures words != [] ==> Joined(words)[|Joined(words)| - 1] != '-'
  {
    if |words| == 1 {
      PlainIsShaped(words[0]);
      JoinedNonEmpty(words);
    } else if words != [] {
      var init, last := words[..|words| - 1], words[|words| - 1];
      JoinedIsShaped(init);
      PlainIsShaped(last);
      JoinedNonEmpty(init);
      JoinedNonEmpty(words);
      JoinsShaped(Joined(init), last);
    }
  }

  lemma {:induction false} JoinsShaped(left: string, right: string)
    requires SlugShaped(left) && SlugShaped(right) && left != "" && right != "" && left[|left| - 1] != '-'
    ensures SlugShaped(left + "-" + right)
  {
  }

  /** For every title: 1 to 80 characters, lower-case letters and digits and single hyphens, none at the front. */
  lemma {:induction false} SlugIsShaped(title: string)
    ensures SlugShaped(Slug(title)) && 1 <= |Slug(title)| <= MAX_SLUG_LEN
  {
    hide Words, Joined;
    WordsArePlain(title);
    JoinedIsShaped(Words(title));
  }

  /** A hyphen at the end is left behind exactly when the cut falls right after one. */
  lemma {:induction false} TrailingHyphenExactlyWhen(title: string)
    ensures Slug(title)[|Slug(title)| - 1] == '-' <==>
              |FullSlug(title)| > MAX_SLUG_LEN && FullSlug(title)[MAX_SLUG_LEN - 1] == '-'
  {
    hide Words, Joined;
    WordsArePlain(title);
    JoinedIsShaped(Words(title));
    if Words(title) == [] {
      assert Joined([]) == "" by {
        NoWords();
      }
    }
  }

  // ---- the slug, position by position ----

  ghost predicate LetterFrom(s: string, n: int) {
    exists j :: n <= j < |s| && 0 <= j && IsAlphanumeric(s[j])
  }

  /** Letters and digits are kept, and of the rest whatever stands right after one and somewhere before another. */
  ghost predicate Kept(s: string, i: nat)
    requires i < |s|
  {
    IsAlphanumeric(s[i]) || (i > 0 && IsAlphanumeric(s[i - 1]) && LetterFrom(s, i))
  }

  ghost function KeptBefore(s: string, n: nat): string
    requires n <= |s|
  {
    if n == 0 then ""
    else
      KeptBefore(s, n - 1) +
      (if !Kept(s, n - 1) then "" else if IsAlphanumeric(s[n - 1]) then [ToLower(s[n - 1])] else "-")
  }

  lemma {:induction false} KeptIsJoined(s: string, n: nat)
    requires n <= |s|
    ensures KeptBefore(s, n) ==
            Joined(Words(s[..n])) +
            (if n > 0 && !IsAlphanumeric(s[n - 1]) && Words(s[..n]) != [] && LetterFrom(s, n) then "-" else "")
    decreases n
  {
    hide Words, Joined;
    if n == 0 {
      NoWords();
    } else {
      KeptIsJoined(s, n - 1);
      var c := s[n - 1];
      assert s[..n] == s[..n - 1] + [c];
      WordsOneMore(s[..n - 1], c);
      WordsArePlain(s[..n - 1]);
      JoinedOneMore(Words(s[..n - 1]), ToLower(c));
      if Words(s[..n - 1]) == [] {
        NoWords();
      }
      assert LetterFrom(s, n - 1) <==> IsAlphanumeric(c) || LetterFrom(s, n);
      if n > 1 && IsAlphanumeric(s[n - 2]) {
        assert s[..n - 1][n - 2] in s[..n - 1];
      }
    }
  }

  /** The whole slug, before it is cut: what is kept, letters in lower case and anything else as a hyphen. */
  lemma {:induction false} SlugKeepsLetters(title: string)
    ensures FullSlug(title) == KeptBefore(title, |title|)
    ensures Slug(title) ==
            if !LetterFrom(title, 0) then "thread"
            else if |FullSlug(title)| <= 80 then FullSlug(title) else FullSlug(title)[..80]
  {
    KeptIsJoined(title, |title|);
    WordsArePlain(title);
    assert title[..|title|] == title;
    hide Words, Joined;
    if Words(title) != [] {
      JoinedNonEmpty(Words(title));
    } else {
      NoWords();
    }
  }

  lemma LowerCase(c: char)
    ensures 'A' <= c <= 'Z' ==> 'a' <= ToLower(c) <= 'z' && ToLower(c) - 'a' == c - 'A'
    ensures !('A' <= c <= 'Z') ==> ToLower(c) == c
  {
  }

  lemma {:induction false} OneWord(s: string)
    requires s != "" && forall i :: 0 <= i < |s| ==> IsLowerOrDigit(s[i])
    ensures Words(s) == [s]
  {
    var n := |s| - 1;
    assert s == s[..n] + [s[n]];
    if n > 0 {
      OneWord(s[..n]);
    } else {
      assert Words(s[..0]) == [];
      assert s == [s[0]];
    }
  }

  /** Seventy-nine letters, a space, one more: the slug ends in a hyphen. */
  lemma {:induction false} TrailingHyphenHappens() returns (title: string)
    ensures Slug(title)[|Slug(title)| - 1] == '-'
  {
    var word := seq(79, _ => 'a');
    title := (word + [' ']) + ['b'];
    OneWord(word);
    WordsOneMore(word, ' ');
    WordsOneMore(word + [' '], 'b');
    assert [word, ['b']][..1] == [word];
    assert Joined([word]) == word;
    assert Joined([word, ['b']]) == word + "-" + ['b'];
    assert FullSlug(title) == word + "-" + ['b'];
  }

  // ---- mention tokens, by what they are ----

  predicate IsTokenChar(c: char) {
    IsAlphanumeric(c) || c == '-'
  }

  /** The longest token at the start of `s`. */
  function Run(s: string): (r: string)
    ensures r <= s && forall i :: 0 <= i < |r| ==> IsTokenChar(r[i])
    ensures |r| < |s| ==> !IsTokenChar(s[|r|])
  {
    if s == [] || !IsTokenChar(s[0]) then [] else [s[0]] + Run(s[1..])
  }

  /** The token after every `@`, in order; an `@` with nothing after it has none. */
  function RawTokens(s: string): seq<string> {
    if s == [] then []
    else if s[0] == '@' && Run(s[1..]) != "" then [Lower(Run(s[1..]))] + RawTokens(s[1..])
    else RawTokens(s[1..])
  }

  /** Each element once, where it was first seen. */
  function Deduplicated<T(==)>(xs: seq<T>): seq<T> {
    if xs == [] then []
    else
      var rest := Deduplicated(xs[..|xs| - 1]);
      if xs[|xs| - 1] in rest then rest else rest + [xs[|xs| - 1]]
  }

  function Tokens(content: string): seq<string> {
    Deduplicated(RawTokens(content))
  }

  // ---- the scanner ----

  /** There is no `@` inside a token, so skipping it skips no other token. */
  lemma {:induction false} SkipRun(s: string, n: nat)
    requires n <= |s| && forall i :: 0 <= i < n ==> IsTokenChar(s[i])
    ensures RawTokens(s) == RawTokens(s[n..])
  {
    if n == 0 {
      assert s[0..] == s;
    } else {
      SkipRun(s[1..], n - 1);
      assert s[1..][n - 1..] == s[n..];
    }
  }

  lemma {:induction false} DeduplicatedOneMore<T>(xs: seq<T>, x: T)
    ensures Deduplicated(xs + [x]) == if x in Deduplicated(xs) then Deduplicated(xs) else Deduplicated(xs) + [x]
  {
    assert (xs + [x])[..|xs|] == xs;
  }

  lemma {:induction false} LowerOneMore(s: string, c: char)
    ensures Lower(s + [c]) == Lower(s) + [ToLower(c)]
  {
  }

  lemma {:induction false} RunAt(s: string, n: nat)
    requires n <= |s|
    ensures Run(s[n..]) == if n < |s| && IsTokenChar(s[n]) then [s[n]] + Run(s[n + 1..]) else []
  {
    if n < |s| {
      assert s[n..][1..] == s[n + 1..];
    }
  }

  /** Reads the token that starts at `from`. */
  method ReadToken(content: string, from: nat) returns (token: string, next: nat)
    requires from <= |content|
    ensures token == Lower(Run(content[from..]))
    ensures next == from + |Run(content[from..])| && next <= |content|
    ensures token == "" <==> Run(content[from..]) == ""
  {
    hide Run, Lower;
    token := "";
    next := from;
    ghost var read := "";
    assert Lower("") == "" by {
      LowerNothing();
    }
    assert Run(content[from..]) == read + Run(content[next..]);
    while next < |content| && IsTokenChar(content[next])
      invariant from <= next <= |content| && |read| == next - from
      invariant token == Lower(read)
      invariant Run(content[from..]) == read + Run(content[next..])
    {
      RunAt(content, next);
      LowerOneMore(read, content[next]);
      assert read + ([content[next]] + Run(content[next + 1..])) == (read + [content[next]]) + Run(content[next + 1..]);
      token := token + [ToLower(content[next])];
      read := read + [content[next]];
      next := next + 1;
    }
    RunAt(content, next);
    assert read + [] == read;
    LowerEmpty(read);
  }

  lemma LowerEmpty(s: string)
    ensures Lower(s) == "" <==> s == ""
  {
  }

  lemma LowerNothing()
    ensures Lower("") == ""
  {
  }

  /** The tokens from position `n` on, one turn of the scanner at a time. */
  lemma {:induction false} TokensFrom(content: string, n: nat)
    requires n < |content|
    ensures content[n] != '@' ==> RawTokens(content[n..]) == RawTokens(content[n + 1..])
    ensures content[n] == '@' ==>
              n + 1 + |Run(content[n + 1..])| <= |content| &&
              RawTokens(content[n..]) ==
              (if Run(content[n + 1..]) != "" then [Lower(Run(content[n + 1..]))] else []) +
              RawTokens(content[n + 1 + |Run(content[n + 1..])|..])
  {
    var rest := content[n + 1..];
    assert content[n..][1..] == rest;
    if content[n] == '@' {
      hide Lower;
      SkipRun(rest, |Run(rest)|);
      assert rest[|Run(rest)|..] == content[n + 1 + |Run(rest)|..];
      hide RawTokens;
      if Run(rest) == "" {
        assert [] + RawTokens(rest) == RawTokens(rest);
      }
    }
  }

  method ExtractMentionTokens(content: string) returns (tokens: seq<string>)
    ensures tokens == Tokens(content)
  {
    hide RawTokens, Deduplicated, Run, Lower;
    tokens := [];
    var n := 0;
    ghost var raw: seq<string> := [];
    assert content[0..] == content;
    NoTokens();
    assert RawTokens(content) == raw + RawTokens(content[n..]);
    while n < |content|
      invariant 0 <= n <= |content|
      invariant RawTokens(content) == raw + RawTokens(content[n..])
      invariant tokens == Deduplicated(raw)
    {
      TokensFrom(content, n);
      if content[n] != '@' {
        n := n + 1;
        continue;
      }
      var token, next := ReadToken(content, n + 1);
      if token != "" {
        DeduplicatedOneMore(raw, token);
        assert raw + ([token] + RawTokens(content[next..])) == (raw + [token]) + RawTokens(content[next..]);
        raw := raw + [token];
        if token !in tokens {
          tokens := tokens + [token];
        }
      } else {
        assert raw + ([] + RawTokens(content[next..])) == raw + RawTokens(content[next..]);
      }
      n := next;
    }
    assert content[n..] == [];
    assert raw + [] == raw;
  }

  lemma NoTokens()
    ensures RawTokens([]) == [] && Deduplicated<string>([]) == []
  {
  }

  // ---- what the tokens are like ----

  /** The position of the first `x`. */
  ghost function FirstSeen<T>(xs: seq<T>, x: T): (i: nat)
    requires x in xs
    ensures i < |xs| && xs[i] == x && forall k :: 0 <= k < i ==> xs[k] != x
  {
    if xs[0] == x then 0
    else
      assert xs == [xs[0]] + xs[1..];
      FirstSeen(xs[1..], x) + 1
  }

  lemma {:induction false} DeduplicatedElement<T>(xs: seq<T>, x: T)
    ensures x in Deduplicated(xs) <==> x in xs
  {
    if xs != [] {
      DeduplicatedElement(xs[..|xs| - 1], x);
      assert xs == xs[..|xs| - 1] + [xs[|xs| - 1]];
    }
  }

  lemma {:induction false} FirstSeenInPrefix<T>(xs: seq<T>, ys: seq<T>, x: T)
    requires x in xs
    ensures x in xs + ys && FirstSeen(xs + ys, x) == FirstSeen(xs, x)
  {
    hide FirstSeen;
    var i := FirstSeen(xs, x);
    assert (xs + ys)[i] == x;
    assert forall k :: 0 <= k < i ==> (xs + ys)[k] == xs[k];
  }

  /** Later in the list means first seen later in the text. */
  lemma {:induction false} DeduplicatedInOrder<T>(xs: seq<T>, i: nat, j: nat)
    requires i < j < |Deduplicated(xs)|
    ensures Deduplicated(xs)[i] in xs && Deduplicated(xs)[j] in xs
    ensures FirstSeen(xs, Deduplicated(xs)[i]) < FirstSeen(xs, Deduplicated(xs)[j])
  {
    var n := |xs| - 1;
    var rest := Deduplicated(xs[..n]);
    assert xs == xs[..n] + [xs[n]];
    assert i < |rest| && rest[i] in rest;
    DeduplicatedElement(xs[..n], rest[i]);
    FirstSeenInPrefix(xs[..n], [xs[n]], rest[i]);
    if j < |rest| {
      DeduplicatedInOrder(xs[..n], i, j);
      assert rest[j] in rest;
      FirstSeenInPrefix(xs[..n], [xs[n]], rest[j]);
    } else {
      DeduplicatedElement(xs[..n], xs[n]);
      assert forall k :: 0 <= k < n ==> xs[..n][k] == xs[k];
    }
  }

  /** A token is not empty and made of lower-case letters, digits and hyphens. */
  ghost predicate IsToken(token: string) {
    token != "" && forall i :: 0 <= i < |token| ==> IsSlugChar(token[i])
  }

  lemma {:induction false} RawTokensAreTokens(s: string)
    ensures forall i :: 0 <= i < |RawTokens(s)| ==> IsToken(RawTokens(s)[i])
  {
    if s != [] {
      RawTokensAreTokens(s[1..]);
    }
  }

  /** From `i` to `j` there is a whole mention: an `@`, then token characters, as many as there are. */
  ghost predicate Mention(s: string, i: int, j: int) {
    && 0 <= i && i + 1 < j <= |s| && s[i] == '@'
    && (forall k :: i < k < j ==> IsAlphanumeric(s[k]) || s[k] == '-')
    && (j < |s| ==> !(IsAlphanumeric(s[j]) || s[j] == '-'))
  }

  lemma RunIsMention(s: string)
    requires s != [] && s[0] == '@' && Run(s[1..]) != ""
    ensures Mention(s, 0, 1 + |Run(s[1..])|) && s[1..1 + |Run(s[1..])|] == Run(s[1..])
  {
    var r := Run(s[1..]);
    forall k | 0 < k < 1 + |r|
      ensures IsTokenChar(s[k])
    {
      assert r[k - 1] == s[1..][k - 1];
    }
  }

  /** The one mention that starts with the text is the longest token there. */
  lemma OneRun(s: string, j: int)
    requires Mention(s, 0, j)
    ensures Run(s[1..]) == s[1..j]
  {
    var rest, r := s[1..], Run(s[1..]);
    assert forall k :: 0 <= k < |rest| ==> rest[k] == s[k + 1];
    assert |r| < |rest| ==> !IsTokenChar(rest[|r|]);
    assert j - 1 < |rest| ==> !IsTokenChar(rest[j - 1]);
    assert forall k :: 0 <= k < j - 1 ==> IsTokenChar(rest[k]);
    assert forall k :: 0 <= k < |r| ==> r[k] == rest[k] && IsTokenChar(rest[k]);
    assert |r| == j - 1;
  }

  lemma MentionLater(s: string, i: int, j: int)
    requires s != []
    ensures Mention(s[1..], i, j) ==> Mention(s, i + 1, j + 1) && s[i + 2..j + 1] == s[1..][i + 1..j]
    ensures i >= 0 && Mention(s, i + 1, j + 1) ==> Mention(s[1..], i, j)
  {
    var rest := s[1..];
    assert forall k :: 0 <= k < |rest| ==> rest[k] == s[k + 1];
    if Mention(rest, i, j) {
      forall k | i + 1 < k < j + 1
        ensures IsTokenChar(s[k])
      {
        assert rest[k - 1] == s[k];
      }
    }
    if i >= 0 && Mention(s, i + 1, j + 1) {
      forall k | i < k < j
        ensures IsTokenChar(rest[k])
      {
        assert rest[k] == s[k + 1];
      }
    }
  }

  ghost predicate Mentioned(s: string, token: string) {
    exists i, j :: Mention(s, i, j) && token == Lower(s[i + 1..j])
  }

  /** A mention is at the start of the text, or in the rest. */
  lemma MentionedLater(s: string, token: string)
    requires s != []
    ensures Mentioned(s, token) <==>
              Mentioned(s[1..], token) || (s[0] == '@' && Run(s[1..]) != "" && token == Lower(Run(s[1..])))
  {
    hide Lower, Run;
    if Mentioned(s[1..], token) {
      var i, j :| Mention(s[1..], i, j) && token == Lower(s[1..][i + 1..j]);
      MentionLater(s, i, j);
    }
    if s[0] == '@' && Run(s[1..]) != "" {
      RunIsMention(s);
    }
    if i, j :| Mention(s, i, j) && token == Lower(s[i + 1..j]) {
      if i > 0 {
        MentionLater(s, i - 1, j - 1);
      } else {
        OneRun(s, j);
      }
    }
  }

  lemma {:induction false} RawTokensAreMentions(s: string, token: string)
    ensures token in RawTokens(s) <==> Mentioned(s, token)
  {
    hide Mentioned, Lower, Run;
    if s == [] {
      NothingMentioned(token);
    } else {
      RawTokensAreMentions(s[1..], token);
      MentionedLater(s, token);
    }
  }

  lemma NothingMentioned(token: string)
    ensures !Mentioned("", token)
  {
  }

  /** A token is extracted exactly if the text mentions it somewhere, in whatever case. */
  lemma {:induction false} TokensAreMentions(content: string, token: string)
    ensures token in Tokens(content) <==>
              exists i, j :: Mention(content, i, j) && token == Lower(content[i + 1..j])
  {
    DeduplicatedElement(RawTokens(content), token);
    RawTokensAreMentions(content, token);
  }

  /** Every extracted token is mentioned in the text, not empty and well formed. */
  lemma {:induction false} TokensAreMentioned(content: string, i: nat)
    requires i < |Tokens(content)|
    ensures Tokens(content)[i] in RawTokens(content) && IsToken(Tokens(content)[i])
  {
    assert Tokens(content)[i] in Tokens(content);
    DeduplicatedElement(RawTokens(content), Tokens(content)[i]);
    RawTokensAreTokens(content);
  }

  /** The extracted tokens are distinct and in the order the text first mentions them. */
  lemma {:induction false} TokensInFirstSeenOrder(content: string, i: nat, j: nat)
    requires i < j < |Tokens(content)|
    ensures Tokens(content)[i] != Tokens(content)[j]
    ensures Tokens(content)[i] in RawTokens(content) && Tokens(content)[j] in RawTokens(content)
    ensures FirstSeen(RawTokens(content), Tokens(content)[i]) < FirstSeen(RawTokens(content), Tokens(content)[j])
    ensures IsToken(Tokens(content)[i]) && IsToken(Tokens(content)[j])
  {
    DeduplicatedInOrder(RawTokens(content), i, j);
    RawTokensAreTokens(content);
  }

  // ---- the round trip ----

  lemma {:induction false} RunOfToken(s: string)
    requires forall i :: 0 <= i < |s| ==> IsTokenChar(s[i])
    ensures Run(s) == s
  {
  }

  lemma {:induction false} NoMentions(s: string)
    requires forall i :: 0 <= i < |s| ==> IsTokenChar(s[i])
    ensures RawTokens(s) == []
  {
    SkipRun(s, |s|);
    assert s[|s|..] == [];
  }

  /** Mentioning a slug names exactly that slug: how a role is found by its name's slug. */
  lemma {:induction false} SlugRoundTrip(title: string)
    ensures Tokens("@" + Slug(title)) == [Slug(title)]
  {
    hide Words, Joined, Slug;
    var slug := Slug(title);
    SlugIsShaped(title);
    RunOfToken(slug);
    NoMentions(slug);
    assert ("@" + slug)[1..] == slug;
    assert Lower(slug) == slug;
    assert RawTokens("@" + slug) == [slug];
    DeduplicatedOneMore([], slug);
    assert [] + [slug] == [slug];
  }
}
