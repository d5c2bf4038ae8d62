/** The part of Go's `strings` and `strconv` packages that the gateway's text handling
    relies on. Text is a sequence of characters (the gateway only accepts valid UTF-8). */
module GoStrings {

  datatype Option<+T> = None | Some(value: T)

  datatype Result<+T, +E> = Ok(value: T) | Err(error: E)

  /** unicode.IsSpace */
  predicate IsSpace(c: char) {
    || '\t' <= c <= '\r' || c == ' ' || c == '\U{85}' || c == '\U{A0}' || c == '\U{1680}'
    || '\U{2000}' <= c <= '\U{200A}' || c == '\U{2028}' || c == '\U{2029}'
    || c == '\U{202F}' || c == '\U{205F}' || c == '\U{3000}'
  }

  predicate NoSpace(s: string) {
    forall i :: 0 <= i < |s| ==> !IsSpace(s[i])
  }

  /** A word as strings.Fields yields it. */
  predicate Word(s: string) {
    s != "" && NoSpace(s)
  }

  function TrimLeftSpace(s: string): (r: string)
    ensures r == "" || !IsSpace(r[0])
    ensures |r| <= |s|
  {
    if s != "" && IsSpace(s[0]) then TrimLeftSpace(s[1..]) else s
  }

  function TrimRightSpace(s: string): (r: string)
    ensures r <= s
    ensures r == "" || !IsSpace(r[|r| - 1])
  {
    if s != "" && IsSpace(s[|s| - 1]) then TrimRightSpace(s[..|s| - 1]) else s
  }

  /** strings.TrimSpace */
  function TrimSpace(s: string): string {
    TrimRightSpace(TrimLeftSpace(s))
  }

  predicate HasSuffix(s: string, suffix: string) {
    |suffix| <= |s| && s[|s| - |suffix|..] == suffix
  }

  /** strings.ToLower, for ASCII text. */
  function ToLower(s: string): string {
    if s == "" then ""
    else (if 'A' <= s[0] <= 'Z' then [s[0] - 'A' + 'a'] else [s[0]]) + ToLower(s[1..])
  }

  /** strings.TrimPrefix; strings.HasPrefix(s, p) is Dafny's `p <= s`. */
  function TrimPrefix(s: string, prefix: string): string {
    if prefix <= s then s[|prefix|..] else s
  }

  function TrimSuffix(s: string, suffix: string): string {
    if HasSuffix(s, suffix) then s[..|s| - |suffix|] else s
  }

  /** strings.Split for a one-character separator. */
  function Split(s: string, sep: char): (parts: seq<string>)
    ensures |parts| >= 1
    ensures forall i :: 0 <= i < |parts| ==> sep !in parts[i]
  {
    if s == "" then [""]
    else if s[0] == sep then [""] + Split(s[1..], sep)
    else
      var rest := Split(s[1..], sep);
      [[s[0]] + rest[0]] + rest[1..]
  }

  /** strings.Join for a one-character separator. */
  function Join(parts: seq<string>, sep: char): string {
    if parts == [] then ""
    else if |parts| == 1 then parts[0]
    else parts[0] + [sep] + Join(parts[1..], sep)
  }

  /** The length of the leading run of non-space characters. */
  function WordLength(s: string): (n: nat)
    ensures n <= |s|
    ensures s != "" && !IsSpace(s[0]) ==> n > 0
  {
    if s == "" || IsSpace(s[0]) then 0 else 1 + WordLength(s[1..])
  }

  /** strings.Fields */
  function Fields(s: string): (words: seq<string>)
    decreases |s|
  {
    var t := TrimLeftSpace(s);
    if t == "" then []
    else
      var n := WordLength(t);
      [t[..n]] + Fields(t[n..])
  }

  predicate IsDigit(c: char) {
    '0' <= c <= '9'
  }

  predicate AllDigits(s: string) {
    forall i :: 0 <= i < |s| ==> IsDigit(s[i])
  }

  function NatToString(n: nat): (s: string)
    ensures s != "" && AllDigits(s)
  {
    if n < 10 then [n as char + '0'] else NatToString(n / 10) + [(n % 10) as char + '0']
  }

  /** strconv.Itoa */
  function Itoa(n: int): string {
    if n < 0 then "-" + NatToString(-n) else NatToString(n)
  }

  function DigitsValue(s: string): nat
    requires AllDigits(s)
  {
    if s == "" then 0 else 10 * DigitsValue(s[..|s| - 1]) + (s[|s| - 1] - '0') as nat
  }

  /** strconv.ParseInt(s, 10, 64), which is strconv.Atoi where int has 64 bits. */
  function ParseInt(s: string): Option<int> {
    var signed := s != "" && (s[0] == '+' || s[0] == '-');
    var digits := if signed then s[1..] else s;
    if digits == "" || !AllDigits(digits) then None
    else
      var magnitude: int := DigitsValue(digits);
      var n := if signed && s[0] == '-' then -magnitude else magnitude;
      if -0x8000_0000_0000_0000 <= n < 0x8000_0000_0000_0000 then Some(n) else None
  }

  lemma {:induction false} SplitJoinHead(head: string, tail: string, sep: char)
    requires sep !in head
    ensures Split(head + [sep] + tail, sep) == [head] + Split(tail, sep)
  {
    var s := head + [sep] + tail;
    if head == "" {
      assert s[1..] == tail;
    } else {
      assert s[1..] == head[1..] + [sep] + tail;
      SplitJoinHead(head[1..], tail, sep);
      assert s[0] == head[0] && [head[0]] + head[1..] == head;
    }
  }

  lemma {:induction false} SplitWithoutSeparator(s: string, sep: char)
    requires sep !in s
    ensures Split(s, sep) == [s]
  {
    if s != "" {
      SplitWithoutSeparator(s[1..], sep);
      assert [s[0]] + s[1..] == s;
    }
  }

  /** Splitting undoes joining when no part holds the separator. */
  lemma {:induction false} SplitJoin(parts: seq<string>, sep: char)
    requires parts != []
    requires forall i :: 0 <= i < |parts| ==> sep !in parts[i]
    ensures Split(Join(parts, sep), sep) == parts
  {
    if |parts| == 1 {
      SplitWithoutSeparator(parts[0], sep);
    } else {
      SplitJoin(parts[1..], sep);
      SplitJoinHead(parts[0], Join(parts[1..], sep), sep);
    }
  }

  /** Joining undoes splitting, always. */
  lemma {:induction false} JoinSplit(s: string, sep: char)
    ensures Join(Split(s, sep), sep) == s
  {
    if s != "" {
      JoinSplit(s[1..], sep);
      var rest := Split(s[1..], sep);
      if s[0] == sep {
        assert Split(s, sep)[1..] == rest;
      } else {
        var parts := Split(s, sep);
        assert parts[1..] == rest[1..];
        assert parts[0] == [s[0]] + rest[0];
      }
    }
  }

  lemma {:induction false} WordLengthOfWord(word: string, tail: string)
    requires NoSpace(word)
    requires tail == "" || IsSpace(tail[0])
    ensures WordLength(word + tail) == |word|
  {
    if word == "" {
      assert word + tail == tail;
    } else {
      assert (word + tail)[1..] == word[1..] + tail;
      WordLengthOfWord(word[1..], tail);
    }
  }

  /** strings.Fields recovers the words joined with single spaces. */
  lemma {:induction false} FieldsJoin(words: seq<string>)
    requires forall i :: 0 <= i < |words| ==> Word(words[i])
    ensures Fields(Join(words, ' ')) == words
  {
    if words != [] {
      var w := words[0];
      var tail := if |words| == 1 then "" else [' '] + Join(words[1..], ' ');
      var s := Join(words, ' ');
      assert s == w + tail;
      WordLengthOfWord(w, tail);
      assert s[..|w|] == w && s[|w|..] == tail;
      FieldsJoin(words[1..]);
      if |words| > 1 {
        FieldsAfterSpace(Join(words[1..], ' '), ' ');
      }
    }
  }

  lemma FieldsAfterSpace(s: string, c: char)
    requires IsSpace(c)
    ensures Fields([c] + s) == Fields(s)
  {
    assert ([c] + s)[1..] == s;
  }

  lemma {:induction false} DigitsValueOfNat(n: nat)
    ensures DigitsValue(NatToString(n)) == n
  {
    if n < 10 {
      var s := NatToString(n);
      assert s[..|s| - 1] == "";
    } else {
      DigitsValueOfNat(n / 10);
      var s := NatToString(n);
      assert s[..|s| - 1] == NatToString(n / 10);
    }
  }

  /** strconv.Atoi undoes strconv.Itoa. */
  lemma ParseIntItoa(n: int)
    requires -0x8000_0000_0000_0000 <= n < 0x8000_0000_0000_0000
    ensures ParseInt(Itoa(n)) == Some(n)
  {
    if n < 0 {
      DigitsValueOfNat(-n);
      assert Itoa(n)[1..] == NatToString(-n);
    } else {
      DigitsValueOfNat(n);
    }
  }

  lemma TrimSpaceOfTrimmed(s: string)
    requires s != "" ==> !IsSpace(s[0]) && !IsSpace(s[|s| - 1])
    ensures TrimSpace(s) == s
  {
  }

  lemma {:induction false} TrimSpaceDropsLeading(lead: string, s: string)
    requires forall i :: 0 <= i < |lead| ==> IsSpace(lead[i])
    ensures TrimSpace(lead + s) == TrimSpace(s)
  {
    if lead == "" {
      assert lead + s == s;
    } else {
      assert (lead + s)[1..] == lead[1..] + s;
      TrimSpaceDropsLeading(lead[1..], s);
    }
  }

  // ---- What these functions mean, apart from how they compute ----

  /** The white space of Unicode, by code point. */
  lemma WhiteSpace(c: char)
    ensures IsSpace(c) <==>
      c as int in {9, 10, 11, 12, 13, 32, 0x85, 0xA0, 0x1680, 0x2000, 0x2001, 0x2002, 0x2003, 0x2004, 0x2005, 0x2006,
                   0x2007, 0x2008, 0x2009, 0x200A, 0x2028, 0x2029, 0x202F, 0x205F, 0x3000}
  {
  }

  ghost predicate AllSpace(s: string) {
    forall i :: 0 <= i < |s| ==> IsSpace(s[i])
  }

  ghost predicate Trimmed(s: string) {
    s == "" || (!IsSpace(s[0]) && !IsSpace(s[|s| - 1]))
  }

  lemma {:induction false} TrimSpaceSplits(s: string) returns (lead: string, trail: string)
    ensures s == lead + TrimSpace(s) + trail && AllSpace(lead) && AllSpace(trail) && Trimmed(TrimSpace(s))
  {
    lead := TrimLeftSplits(s);
    trail := TrimRightSplits(TrimLeftSpace(s));
  }

  lemma {:induction false} TrimLeftSplits(s: string) returns (lead: string)
    ensures s == lead + TrimLeftSpace(s) && AllSpace(lead)
  {
    if s != "" && IsSpace(s[0]) {
      lead := TrimLeftSplits(s[1..]);
      lead := [s[0]] + lead;
    } else {
      lead := "";
    }
  }

  lemma {:induction false} TrimRightSplits(s: string) returns (trail: string)
    ensures s == TrimRightSpace(s) + trail && AllSpace(trail)
  {
    if s != "" && IsSpace(s[|s| - 1]) {
      trail := TrimRightSplits(s[..|s| - 1]);
      trail := trail + [s[|s| - 1]];
    } else {
      trail := "";
    }
  }

  /** Trimming is the only way to cut a text so. */
  lemma {:induction false} TrimSpaceIs(lead: string, s: string, trail: string)
    requires AllSpace(lead) && AllSpace(trail) && Trimmed(s)
    ensures TrimSpace(lead + s + trail) == s
    decreases |lead|
  {
    if lead != "" {
      assert (lead + s + trail)[1..] == lead[1..] + s + trail;
      TrimSpaceIs(lead[1..], s, trail);
    } else {
      assert "" + s + trail == s + trail;
      if s == "" {
        OnlySpaceTrims(trail);
        assert s + trail == trail;
      } else {
        TrimTrail(s, trail);
      }
    }
  }

  lemma {:induction false} OnlySpaceTrims(s: string)
    requires AllSpace(s)
    ensures TrimLeftSpace(s) == ""
  {
    if s != "" {
      OnlySpaceTrims(s[1..]);
    }
  }

  lemma {:induction false} TrimTrail(s: string, trail: string)
    requires s != "" && !IsSpace(s[|s| - 1]) && AllSpace(trail)
    ensures TrimRightSpace(s + trail) == s
  {
    if trail == "" {
      assert s + trail == s;
    } else {
      assert (s + trail)[..|s + trail| - 1] == s + trail[..|trail| - 1];
      TrimTrail(s, trail[..|trail| - 1]);
    }
  }

  lemma HasSuffixIff(s: string, suffix: string)
    ensures HasSuffix(s, suffix) <==> exists front :: s == front + suffix
  {
    if HasSuffix(s, suffix) {
      assert s == s[..|s| - |suffix|] + suffix;
    }
    if front :| s == front + suffix {
      assert s[|s| - |suffix|..] == suffix;
    }
  }

  lemma TrimPrefixIs(prefix: string, rest: string, s: string)
    ensures TrimPrefix(prefix + rest, prefix) == rest
    ensures !(prefix <= s) ==> TrimPrefix(s, prefix) == s
  {
  }

  lemma TrimSuffixIs(front: string, suffix: string, s: string)
    ensures TrimSuffix(front + suffix, suffix) == front
    ensures !HasSuffix(s, suffix) ==> TrimSuffix(s, suffix) == s
  {
    assert (front + suffix)[..|front + suffix| - |suffix|] == front;
    assert (front + suffix)[|front|..] == suffix;
  }

  /** Letters A to Z become a to z, by code point; every other character stays. */
  lemma {:induction false} ToLowerAt(s: string, i: nat)
    ensures |ToLower(s)| == |s|
    ensures i < |s| ==>
      ToLower(s)[i] as int == if 65 <= s[i] as int <= 90 then s[i] as int + 32 else s[i] as int
  {
    if s != "" {
      ToLowerAt(s[1..], if i > 0 then i - 1 else 0);
    }
  }

  /** The words of a text, one after the other: each is as long as it can be. */
  lemma FieldsIs(lead: string, word: string, tail: string)
    requires AllSpace(lead) && Word(word) && (tail == "" || IsSpace(tail[0]))
    ensures Fields(lead + word + tail) == [word] + Fields(tail)
    ensures Fields(lead) == []
  {
    OnlySpaceTrims(lead);
    var s := lead + word + tail;
    TrimLead(lead, word + tail);
    assert s == lead + (word + tail);
    WordLengthOfWord(word, tail);
    assert (word + tail)[..|word|] == word && (word + tail)[|word|..] == tail;
  }

  lemma {:induction false} TrimLead(lead: string, s: string)
    requires AllSpace(lead) && s != "" && !IsSpace(s[0])
    ensures TrimLeftSpace(lead + s) == s
  {
    if lead == "" {
      assert lead + s == s;
    } else {
      assert (lead + s)[1..] == lead[1..] + s;
      TrimLead(lead[1..], s);
    }
  }

  lemma DigitIs(c: char)
    ensures IsDigit(c) <==> 48 <= c as int <= 57
  {
  }

  /** Decimal: each further digit counts ten times what stood before, plus itself. */
  lemma DigitsValueIs(s: string, d: char)
    requires AllDigits(s) && IsDigit(d)
    ensures AllDigits(s + [d]) && DigitsValue(s + [d]) == 10 * DigitsValue(s) + (d as int - 48)
    ensures DigitsValue("") == 0
  {
    assert (s + [d])[..|s|] == s;
  }

  /** A number is an optional sign and at least one digit, in the 64-bit range. */
  lemma ParseIntIs(sign: string, digits: string)
    requires sign == "" || sign == "+" || sign == "-"
    requires digits != "" && AllDigits(digits)
    ensures var m: int := DigitsValue(digits); var n := if sign == "-" then -m else m;
      ParseInt(sign + digits)
      == if -9223372036854775808 <= n <= 9223372036854775807 then Some(n) else None
  {
    hide DigitsValue;
    var s := sign + digits;
    if sign == "" {
      assert s == digits && IsDigit(s[0]);
    } else {
      assert s[1..] == digits && s[0] == sign[0];
    }
  }

  lemma ParseIntIff(s: string) returns (sign: string, digits: string)
    requires ParseInt(s).Some?
    ensures s == sign + digits && (sign == "" || sign == "+" || sign == "-")
    ensures digits != "" && AllDigits(digits)
  {
    hide DigitsValue;
    if s[0] == '+' || s[0] == '-' {
      sign, digits := s[..1], s[1..];
    } else {
      sign, digits := "", s;
    }
  }

  /** Itoa writes no more digits than it needs. */
  lemma {:induction false} NatToStringIs(n: nat)
    ensures n == 0 ==> NatToString(n) == "0"
    ensures n > 0 ==> NatToString(n)[0] != '0'
  {
    if n >= 10 {
      NatToStringIs(n / 10);
    }
  }

  lemma ItoaIs(n: int)
    ensures n >= 0 ==> Itoa(n) == NatToString(n)
    ensures n < 0 ==> Itoa(n) == "-" + NatToString(-n)
  {
  }
}
