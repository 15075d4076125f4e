/** Usernames: validity, the sanitiser that edits a seed in place, and the candidates tried for a
  federated account (backend/src/access/account_policy.rs). */
module AccountPolicy {
  const MIN_LENGTH: nat := 2
  const MAX_LENGTH: nat := 64
  const SUFFIX_LENGTH: nat := 5

  predicate IsLower(c: char) { 'a' <= c <= 'z' }

  predicate IsAlphanumeric(c: char) {
    IsLower(c) || 'A' <= c <= 'Z' || '0' <= c <= '9'
  }

  predicate IsSeparator(c: char) {
    c == '.' || c == '_' || c == '-'
  }

  /** A canonical character: alphanumeric and not an upper-case letter. */
  predicate IsCanonical(c: char) {
    IsLower(c) || '0' <= c <= '9'
  }

  predicate ValidUsername(name: string) {
    && MIN_LENGTH <= |name| <= MAX_LENGTH
    && IsAlphanumeric(name[0]) && IsAlphanumeric(name[|name| - 1])
    && forall i :: 0 <= i < |name| ==> IsAlphanumeric(name[i]) || IsSeparator(name[i])
  }

  function Lowered(c: char): char {
    if 'A' <= c <= 'Z' then ((c as int) + 32) as char else c
  }

  function Mapped(c: char): char {
    if IsAlphanumeric(c) then Lowered(c) else if IsSeparator(c) then c else '-'
  }

  // ---- what the loops compute ----

  function MappedAll(s: string): (raw: string)
    ensures |raw| == |s| && forall i :: 0 <= i < |s| ==> raw[i] == Mapped(s[i])
  {
    if s == [] then [] else MappedAll(s[..|s| - 1]) + [Mapped(s[|s| - 1])]
  }

  /** Drops leading separators and every separator that follows one. */
  function Collapsed(raw: string): string {
    if raw == [] then []
    else
      var before := Collapsed(raw[..|raw| - 1]);
      var c := raw[|raw| - 1];
      if IsSeparator(c) && (before == [] || IsSeparator(before[|before| - 1])) then before else before + [c]
  }

  function WithoutHead(s: string): string {
    if s != [] && !IsAlphanumeric(s[0]) then WithoutHead(s[1..]) else s
  }

  function WithoutTail(s: string): string {
    if s != [] && !IsAlphanumeric(s[|s| - 1]) then WithoutTail(s[..|s| - 1]) else s
  }

  function Padded(s: string): string
    decreases MIN_LENGTH - |s|
  {
    if |s| < MIN_LENGTH then Padded(s + "x") else s
  }

  function Shortened(s: string): string {
    if |s| > MAX_LENGTH then WithoutTail(s[..MAX_LENGTH]) else s
  }

  function Seeded(input: string): string {
    var trimmed := WithoutTail(WithoutHead(Collapsed(MappedAll(input))));
    if trimmed == [] then "user" else trimmed
  }

  function Sanitized(input: string): string {
    Padded(Shortened(Padded(Seeded(input))))
  }

  // ---- names the sanitiser leaves alone ----

  /** Canonical letters and digits, separated by at most one separator at a time. */
  predicate Separated(s: string) {
    && (forall i :: 0 <= i < |s| ==> IsCanonical(s[i]) || IsSeparator(s[i]))
    && (s != [] ==> IsCanonical(s[0]))
    && (forall i :: 0 < i < |s| ==> IsCanonical(s[i - 1]) || IsCanonical(s[i]))
  }

  predicate Clean(name: string) {
    Separated(name) && MIN_LENGTH <= |name| <= MAX_LENGTH && IsCanonical(name[|name| - 1])
  }

  lemma {:induction false} CollapsedIsSeparated(raw: string)
    requires forall i :: 0 <= i < |raw| ==> IsCanonical(raw[i]) || IsSeparator(raw[i])
    ensures Separated(Collapsed(raw))
    decreases |raw|
  {
    if raw != [] {
      CollapsedIsSeparated(raw[..|raw| - 1]);
    }
  }

  lemma {:induction false} TrimmedIsSeparated(s: string)
    requires Separated(s)
    ensures Separated(WithoutTail(s)) && (WithoutTail(s) != [] ==> IsCanonical(WithoutTail(s)[|WithoutTail(s)| - 1]))
    ensures |WithoutTail(s)| <= |s| && (s != [] ==> WithoutTail(s) != [])
    ensures |s| >= 3 ==> |WithoutTail(s)| >= 2
    decreases |s|
  {
    if s != [] && !IsAlphanumeric(s[|s| - 1]) {
      TrimmedIsSeparated(s[..|s| - 1]);
      assert IsCanonical(s[|s| - 2]);
    }
  }

  lemma SeededIsSeparated(input: string)
    ensures Seeded(input) != [] && Separated(Seeded(input)) && IsCanonical(Seeded(input)[|Seeded(input)| - 1])
  {
    CollapsedIsSeparated(MappedAll(input));
    TrimmedIsSeparated(Collapsed(MappedAll(input)));
  }

  lemma CleanIsValid(name: string)
    requires Clean(name)
    ensures ValidUsername(name)
  {
  }

  lemma PaddedIsSeparated(s: string)
    requires Separated(s) && s != [] && IsCanonical(s[|s| - 1])
    ensures |Padded(s)| == if |s| < MIN_LENGTH then MIN_LENGTH else |s|
    ensures Separated(Padded(s)) && IsCanonical(Padded(s)[|Padded(s)| - 1])
  {
    if |s| < MIN_LENGTH {
      assert Padded(s + "x") == s + "x";
    }
  }

  lemma ShortenedIsClean(s: string)
    requires Separated(s) && |s| >= MIN_LENGTH && IsCanonical(s[|s| - 1])
    ensures Clean(Shortened(s)) && Padded(Shortened(s)) == Shortened(s)
  {
    if |s| > MAX_LENGTH {
      TrimmedIsSeparated(s[..MAX_LENGTH]);
    }
  }

  /** For every input the result is clean, so the fallback name is never needed. */
  lemma SanitizedIsClean(input: string)
    ensures Clean(Sanitized(input)) && ValidUsername(Sanitized(input))
  {
    SeededIsSeparated(input);
    PaddedIsSeparated(Seeded(input));
    ShortenedIsClean(Padded(Seeded(input)));
    CleanIsValid(Sanitized(input));
  }

  lemma {:induction false} CollapseKeeps(s: string)
    requires Separated(s)
    ensures Collapsed(s) == s
    decreases |s|
  {
    if s != [] {
      CollapseKeeps(s[..|s| - 1]);
      assert s == s[..|s| - 1] + [s[|s| - 1]];
    }
  }

  lemma CleanIsKept(name: string)
    requires Clean(name)
    ensures Sanitized(name) == name
  {
    assert MappedAll(name) == name;
    CollapseKeeps(name);
  }

  /** Sanitising twice is the same as sanitising once; exactly the clean names are left alone. */
  lemma SanitizingIsIdempotent(input: string)
    ensures Sanitized(Sanitized(input)) == Sanitized(input)
    ensures Sanitized(input) == input <==> Clean(input)
  {
    SanitizedIsClean(input);
    CleanIsKept(Sanitized(input));
    if Clean(input) {
      CleanIsKept(input);
    }
  }

  // ---- what a name is spelled like ----

  const ALPHABET := "abcdefghijklmnopqrstuvwxyz"

  predicate LetterOrDigit(c: char) {
    'a' <= c <= 'z' || 'A' <= c <= 'Z' || '0' <= c <= '9'
  }

  /** What a character adds: a letter or digit in lower case; the first of several other characters
    after one is the separator it is, or a hyphen; everything else is dropped. */
  function Part(c: char, afterLetter: bool): string {
    if 'A' <= c <= 'Z' then [ALPHABET[c as int - 'A' as int]]
    else if LetterOrDigit(c) then [c]
    else if !afterLetter then []
    else if c == '.' then "."
    else if c == '_' then "_"
    else "-"
  }

  predicate EndsInLetter(s: string) {
    s != [] && LetterOrDigit(s[|s| - 1])
  }

  /** The input, spelled from its first character to its last. */
  function Spelled(input: string): string {
    if input == [] then []
    else Spelled(input[..|input| - 1]) + Part(input[|input| - 1], EndsInLetter(input[..|input| - 1]))
  }

  /** The spelling without a separator at its end; an empty one becomes "user", a single character is
    padded, and a long one is cut at 64, or 63 where that would end in a separator. */
  function NameFor(spelled: string): string {
    var trimmed := if spelled == [] || EndsInLetter(spelled) then spelled else spelled[..|spelled| - 1];
    if |trimmed| == 0 then "user"
    else if |trimmed| == 1 then trimmed + "x"
    else if |trimmed| <= 64 then trimmed
    else if LetterOrDigit(trimmed[63]) then trimmed[..64]
    else trimmed[..63]
  }

  lemma MappedLetter(c: char)
    ensures 'A' <= c <= 'Z' ==> Mapped(c) == ALPHABET[c as int - 'A' as int]
    ensures LetterOrDigit(c) && !('A' <= c <= 'Z') ==> Mapped(c) == c
    ensures LetterOrDigit(c) <==> !IsSeparator(Mapped(c))
    ensures !LetterOrDigit(c) ==> Mapped(c) == if c == '.' then '.' else if c == '_' then '_' else '-'
  {
    assert forall i: nat :: i < 26 ==> ALPHABET[i] as int == 'a' as int + i;
  }

  lemma PartIsCollapsed(v: string, c: char)
    requires v != [] && !LetterOrDigit(v[|v| - 1]) ==> IsSeparator(v[|v| - 1])
    ensures var kept := if IsSeparator(Mapped(c)) && (v == [] || IsSeparator(v[|v| - 1])) then v else v + [Mapped(c)];
            && kept == v + Part(c, EndsInLetter(v))
            && (kept != [] ==> (IsSeparator(kept[|kept| - 1]) <==> !LetterOrDigit(kept[|kept| - 1])))
            && (EndsInLetter(kept) <==> LetterOrDigit(c))
  {
    MappedLetter(c);
  }

  lemma {:induction false} CollapsedIsSpelled(input: string)
    ensures Collapsed(MappedAll(input)) == Spelled(input)
    ensures EndsInLetter(Spelled(input)) <==> EndsInLetter(input)
    ensures Spelled(input) != [] && !EndsInLetter(Spelled(input)) ==> IsSeparator(Spelled(input)[|Spelled(input)| - 1])
    decreases |input|
  {
    if input != [] {
      var before := input[..|input| - 1];
      CollapsedIsSpelled(before);
      PartIsCollapsed(Spelled(before), input[|input| - 1]);
      assert MappedAll(input)[..|input| - 1] == MappedAll(before);
      CollapsedNext(MappedAll(input), Spelled(before), Mapped(input[|input| - 1]));
    }
  }

  lemma CollapsedNext(raw: string, before: string, c: char)
    requires raw != [] && raw[|raw| - 1] == c && before == Collapsed(raw[..|raw| - 1])
    ensures Collapsed(raw)
            == if IsSeparator(c) && (before == [] || IsSeparator(before[|before| - 1])) then before else before + [c]
  {
  }

  lemma TrimmedOnce(s: string)
    requires Separated(s) && s != []
    ensures WithoutHead(s) == s
    ensures WithoutTail(s) == (if LetterOrDigit(s[|s| - 1]) then s else s[..|s| - 1])
  {
    if !IsAlphanumeric(s[|s| - 1]) && |s| > 1 {
      assert IsCanonical(s[|s| - 2]);
      assert WithoutTail(s[..|s| - 1]) == s[..|s| - 1];
    }
  }

  lemma PaddedAndShortened(s: string)
    requires Separated(s) && s != [] && IsCanonical(s[|s| - 1])
    ensures Padded(Shortened(Padded(s)))
            == (if |s| == 1 then s + "x"
                else if |s| <= 64 then s
                else if LetterOrDigit(s[63]) then s[..64]
                else s[..63])
  {
    if |s| == 1 {
      assert Padded(s + "x") == s + "x";
    } else if |s| > 64 {
      TrimmedOnce(s[..64]);
    }
  }

  lemma NameOfSpelling(spelled: string)
    requires Separated(spelled)
    ensures var trimmed := WithoutTail(WithoutHead(spelled));
            Padded(Shortened(Padded(if trimmed == [] then "user" else trimmed))) == NameFor(spelled)
  {
    var trimmed := WithoutTail(WithoutHead(spelled));
    TrimmedIsSeparated(spelled);
    if spelled != [] {
      TrimmedOnce(spelled);
      PaddedAndShortened(trimmed);
    }
  }

  /** The sanitiser's stages together: the name is the spelling of the input. */
  lemma NameIsSpelled(input: string)
    ensures Sanitized(input) == NameFor(Spelled(input))
  {
    CollapsedIsSpelled(input);
    NameOfCollapsed(input, Collapsed(MappedAll(input)));
  }

  lemma NameOfCollapsed(input: string, collapsed: string)
    requires collapsed == Collapsed(MappedAll(input))
    ensures Sanitized(input) == NameFor(collapsed)
  {
    CollapsedIsSeparated(MappedAll(input));
    NameOfSpelling(collapsed);
  }

  lemma CleanCharacters(name: string)
    requires Clean(name)
    ensures 2 <= |name| <= 64 && forall i :: 0 <= i < |name| ==>
      'a' <= name[i] <= 'z' || '0' <= name[i] <= '9' || (0 < i < |name| - 1 && name[i] in ".-_")
  {
  }

  lemma SanitizedName(input: string)
    ensures ValidUsername(Sanitized(input)) && Sanitized(input) == NameFor(Spelled(input))
    ensures var name := Sanitized(input);
      2 <= |name| <= 64 && forall i :: 0 <= i < |name| ==>
        'a' <= name[i] <= 'z' || '0' <= name[i] <= '9' || (0 < i < |name| - 1 && name[i] in ".-_")
  {
    SanitizedIsClean(input);
    CleanCharacters(Sanitized(input));
    NameIsSpelled(input);
  }

  // ---- the loops ----

  method SanitizeUsernameSeed(input: string) returns (name: string)
    ensures name == Sanitized(input) && ValidUsername(name)
    ensures name == NameFor(Spelled(input))
    ensures 2 <= |name| <= 64 && forall i :: 0 <= i < |name| ==>
      'a' <= name[i] <= 'z' || '0' <= name[i] <= '9' || (0 < i < |name| - 1 && name[i] in ".-_")
  {
    var raw := MapCharacters(input);
    var collapsed := Collapse(raw);
    collapsed := TrimHead(collapsed);
    collapsed := TrimTail(collapsed);
    if collapsed == [] {
      collapsed := collapsed + "user";
    }
    collapsed := Pad(collapsed);
    if |collapsed| > MAX_LENGTH {
      collapsed := TrimTail(collapsed[..MAX_LENGTH]);
    }
    collapsed := Pad(collapsed);
    SanitizedName(input);
    name := if ValidUsername(collapsed) then collapsed else "userxxx";
  }

  method MapCharacters(input: string) returns (raw: string)
    ensures raw == MappedAll(input)
  {
    raw := [];
    for i := 0 to |input|
      invariant raw == MappedAll(input[..i])
    {
      var c := input[i];
      assert input[..i + 1][..i] == input[..i];
      if IsAlphanumeric(c) {
        raw := raw + [Lowered(c)];
      } else if IsSeparator(c) {
        raw := raw + [c];
      } else {
        raw := raw + ['-'];
      }
    }
    assert input[..|input|] == input;
  }

  method Collapse(raw: string) returns (collapsed: string)
    ensures collapsed == Collapsed(raw)
  {
    collapsed := [];
    var previousWasSeparator := false;
    for i := 0 to |raw|
      invariant collapsed == Collapsed(raw[..i])
      invariant collapsed != [] ==> previousWasSeparator == IsSeparator(collapsed[|collapsed| - 1])
    {
      var c := raw[i];
      assert raw[..i + 1][..i] == raw[..i];
      if !(IsSeparator(c) && (collapsed == [] || previousWasSeparator)) {
        collapsed := collapsed + [c];
        previousWasSeparator := IsSeparator(c);
      }
    }
    assert raw[..|raw|] == raw;
  }

  method TrimHead(s: string) returns (trimmed: string)
    ensures trimmed == WithoutHead(s)
  {
    trimmed := s;
    while trimmed != [] && !IsAlphanumeric(trimmed[0])
      invariant WithoutHead(trimmed) == WithoutHead(s)
      decreases |trimmed|
    {
      trimmed := trimmed[1..];
    }
  }

  method TrimTail(s: string) returns (trimmed: string)
    ensures trimmed == WithoutTail(s)
  {
    trimmed := s;
    while trimmed != [] && !IsAlphanumeric(trimmed[|trimmed| - 1])
      invariant WithoutTail(trimmed) == WithoutTail(s)
      decreases |trimmed|
    {
      trimmed := trimmed[..|trimmed| - 1];
    }
  }

  method Pad(s: string) returns (padded: string)
    ensures padded == Padded(s)
  {
    padded := s;
    while |padded| < MIN_LENGTH
      invariant Padded(padded) == Padded(s)
    {
      padded := padded + "x";
    }
  }

  // ---- federated candidates ----

  /** The base itself first, and then the shortened base with a random suffix. */
  function Candidate(base: string, attempt: nat, suffix: string): string {
    if attempt == 0 then base
    else
      var room := if MAX_LENGTH < 1 + |suffix| then 0 else MAX_LENGTH - (1 + |suffix|);
      var trimmed := if |base| > room then base[..room] else base;
      var candidate := trimmed + "-" + suffix;
      if ValidUsername(candidate) then candidate else "userxxx"
  }

  /** Every candidate made from a sanitised seed and a five-character lower-case suffix is valid, at
    most 64 long, and ends in that suffix: the fallback is never taken. */
  lemma CandidatesAreValid(seed: string, attempt: nat, suffix: string)
    requires |suffix| == SUFFIX_LENGTH && forall i :: 0 <= i < |suffix| ==> IsCanonical(suffix[i])
    ensures var candidate := Candidate(Sanitized(seed), attempt, suffix);
            && ValidUsername(candidate) && 2 <= |candidate| <= 64
            && (attempt == 0 ==> candidate == Sanitized(seed))
            && (attempt > 0 ==>
                  candidate == (if |Sanitized(seed)| > 58 then Sanitized(seed)[..58] else Sanitized(seed)) + "-" + suffix)
            && (attempt > 0 ==> |candidate| > |suffix| && candidate[|candidate| - |suffix|..] == suffix
                                && candidate[|candidate| - |suffix| - 1] == '-')
  {
    SanitizedIsClean(seed);
    var base := Sanitized(seed);
    var room := MAX_LENGTH - (1 + SUFFIX_LENGTH);
    var trimmed := if |base| > room then base[..room] else base;
    var candidate := trimmed + "-" + suffix;
    assert candidate[0] == base[0] && candidate[|candidate| - 1] == suffix[4];
    assert ValidUsername(candidate);
    assert candidate[|candidate| - |suffix|..] == suffix;
  }
}
