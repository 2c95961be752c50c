/** The EmailParser tool of backend/tools/email_parser.py: sender splitting, subject and body
    clean-up, and the metadata flags read off the raw body. */
module EmailParser {
  import opened Wrappers
  import opened Text

  /** One field of the incoming email dict: missing, JSON null, or a string. */
  datatype Field = Absent | Null | Str(s: string)

  /** The email dict handed to the parser. `hasAttachments` is None when the key is missing. */
  datatype RawEmail = RawEmail(sender: Field, subject: Field, body: Field, receivedDate: Field,
                               hasAttachments: Option<bool>)

  /** `email_data.get(key, "")` for a field that is not null. */
  function StrOf(f: Field): string
    requires !f.Null?
  {
    match f
    case Absent => ""
    case Str(s) => s
  }

  /** email.utils.parseaddr as an uninterpreted function: (display name, address). */
  type ParseAddr = string -> (string, string)

  /** The sender entry. `email` is None when the sender was JSON null and no address was found. */
  datatype Sender = Sender(name: string, email: Option<string>)

  /** What parseaddr returns for the field: for null it returns two empty strings. */
  function AddressPair(sender: Field, parseAddr: ParseAddr): (string, string)
  {
    match sender
    case Null => ("", "")
    case Absent => parseAddr("")
    case Str(s) => parseAddr(s)
  }

  /** `_parse_sender`: the display name, or the address's local part when there is no name,
      or "Unknown" without an address; the address, or the raw sender when there is none. */
  function ParseSender(sender: Field, parseAddr: ParseAddr): (r: Sender)
    ensures AddressPair(sender, parseAddr).1 == "" ==> r.name == "Unknown"
    ensures AddressPair(sender, parseAddr).1 != "" && AddressPair(sender, parseAddr).0 != "" ==>
              r.name == AddressPair(sender, parseAddr).0
    ensures AddressPair(sender, parseAddr).1 != "" && AddressPair(sender, parseAddr).0 == "" ==>
              '@' !in r.name && StartsWith(AddressPair(sender, parseAddr).1, r.name)
              && (|r.name| < |AddressPair(sender, parseAddr).1| ==> AddressPair(sender, parseAddr).1[|r.name|] == '@')
    ensures AddressPair(sender, parseAddr).1 != "" ==> r.email == Some(AddressPair(sender, parseAddr).1)
    ensures AddressPair(sender, parseAddr).1 == "" ==>
              r.email == (if sender.Null? then None else Some(StrOf(sender)))
  {
    var (name, email) := AddressPair(sender, parseAddr);
    Sender(if email != "" then (if name != "" then name else BeforeFirst(email, '@')) else "Unknown",
           if email != "" then Some(email) else if sender.Null? then None else Some(StrOf(sender)))
  }

  /** A nameless address `local@domain` is shown under its local part. */
  lemma SenderNameIsLocalPart(sender: Field, parseAddr: ParseAddr, local: string, domain: string)
    requires AddressPair(sender, parseAddr) == ("", local + "@" + domain)
    requires '@' !in local
    ensures ParseSender(sender, parseAddr).name == local
  {
    var s := local + "@" + domain;
    assert s[|local|] == '@';
    assert s[..|local|] == local;
  }

  /** Some casing of "Re:", "Fw:" or "Fwd:", and nothing more: what one alternative of
      `^(Re:|Fwd?:|RE:|FW:)` matches under IGNORECASE. */
  predicate IsMarker(m: string)
  {
    Lower(m) == "re:" || Lower(m) == "fw:" || Lower(m) == "fwd:"
  }

  /** A marker, character by character. */
  lemma MarkerShape(m: string)
    ensures IsMarker(m) <==>
              || (|m| == 3 && LowerChar(m[0]) == 'r' && LowerChar(m[1]) == 'e' && m[2] == ':')
              || (|m| == 3 && LowerChar(m[0]) == 'f' && LowerChar(m[1]) == 'w' && m[2] == ':')
              || (|m| == 4 && LowerChar(m[0]) == 'f' && LowerChar(m[1]) == 'w' && LowerChar(m[2]) == 'd'
                  && m[3] == ':')
  {
    var l := Lower(m);
    if |m| == 3 {
      assert l == [LowerChar(m[0]), LowerChar(m[1]), LowerChar(m[2])];
    } else if |m| == 4 {
      assert l == [LowerChar(m[0]), LowerChar(m[1]), LowerChar(m[2]), LowerChar(m[3])];
    }
  }

  lemma MarkerPrefixesShape(s: string)
    ensures forall k :: 0 < k <= |s| ==>
              (IsMarker(s[..k]) <==>
                 || (k == 3 && LowerChar(s[0]) == 'r' && LowerChar(s[1]) == 'e' && s[2] == ':')
                 || (k == 3 && LowerChar(s[0]) == 'f' && LowerChar(s[1]) == 'w' && s[2] == ':')
                 || (k == 4 && LowerChar(s[0]) == 'f' && LowerChar(s[1]) == 'w' && LowerChar(s[2]) == 'd'
                     && s[3] == ':'))
  {
    forall k | 0 < k <= |s| {
      MarkerShape(s[..k]);
    }
  }

  /** The length of the reply/forward marker `^(Re:|Fwd?:|RE:|FW:)` matches at the start, or 0.
      The alternatives are tried in order, `d?` is greedy, and IGNORECASE folds the ASCII
      letters. */
  function MarkerLength(s: string): (n: nat)
    ensures n <= |s|
    ensures n == 0 || n == 3 || n == 4
    ensures n > 0 ==> IsMarker(s[..n])
    ensures n == 0 ==> forall k :: 0 < k <= |s| ==> !IsMarker(s[..k])
  {
    MarkerPrefixesShape(s);
    if |s| >= 3 && LowerChar(s[0]) == 'r' && LowerChar(s[1]) == 'e' && s[2] == ':' then 3
    else if |s| >= 4 && LowerChar(s[0]) == 'f' && LowerChar(s[1]) == 'w' && LowerChar(s[2]) == 'd'
            && s[3] == ':' then 4
    else if |s| >= 3 && LowerChar(s[0]) == 'f' && LowerChar(s[1]) == 'w' && s[2] == ':' then 3
    else 0
  }

  /** `_clean_subject`: one leading marker (and the whitespace after it) removed, then strip.
      The pattern is anchored with `^`, so a subject that does not start with a marker is only
      stripped, and a second marker is never touched. */
  function CleanSubject(s: string): (r: string)
    ensures r == [] || (!IsSpace(r[0]) && !IsSpace(r[|r| - 1]))
    ensures (forall k :: 0 < k <= |s| ==> !IsMarker(s[..k])) ==> r == Strip(s)
    ensures forall k :: 0 < k <= |s| && IsMarker(s[..k]) ==> r == Strip(s[k..])
  {
    MarkerUnique(s);
    assert s[0..] == s;
    Strip(s[MarkerLength(s)..])
  }

  /** At most one prefix of a subject is a marker, and it is the one the pattern matches. */
  lemma MarkerUnique(s: string)
    ensures forall k :: 0 < k <= |s| && IsMarker(s[..k]) ==> MarkerLength(s) == k
  {
    forall k | 0 < k <= |s| && IsMarker(s[..k])
      ensures MarkerLength(s) == k
    {
      assert s[..k] + s[k..] == s;
      MarkerPrefix(s[..k], s[k..]);
    }
  }

  /** Any casing of "Re:", "Fw:" or "Fwd:" in front is dropped and the rest is stripped. */
  lemma CleanSubjectDropsMarker(m: string, x: string)
    requires IsMarker(m)
    ensures CleanSubject(m + x) == Strip(x)
  {
    MarkerPrefix(m, x);
    assert (m + x)[|m|..] == x;
  }

  /** Text after a marker does not change how much of it the pattern matches. */
  lemma MarkerPrefix(m: string, x: string)
    requires IsMarker(m)
    ensures MarkerLength(m + x) == |m|
  {
    MarkerShape(m);
    var s := m + x;
    assert s[0] == m[0] && s[1] == m[1] && s[2] == m[2];
    if |m| == 4 {
      assert s[3] == m[3];
    }
  }

  lemma {:induction false} TrimEndKeepsPrefix(p: string, x: string)
    requires p != [] && !IsSpace(p[|p| - 1])
    ensures StartsWith(TrimEnd(p + x), p)
    decreases |x|
  {
    if x == [] {
      assert p + x == p;
    } else if IsSpace(x[|x| - 1]) {
      assert (p + x)[..|p + x| - 1] == p + x[..|x| - 1];
      TrimEndKeepsPrefix(p, x[..|x| - 1]);
    } else {
      assert (p + x)[..|p|] == p;
    }
  }

  lemma MarkerEnds(m: string)
    requires IsMarker(m)
    ensures !IsSpace(m[0]) && m[|m| - 1] == ':'
  {
    MarkerShape(m);
  }

  /** Only one marker goes: behind it, a second marker survives at the front of the result. */
  lemma CleanSubjectKeepsSecondMarker(m1: string, m2: string, x: string)
    requires IsMarker(m1) && IsMarker(m2)
    ensures StartsWith(CleanSubject(m1 + m2 + x), m2)
  {
    assert m1 + m2 + x == m1 + (m2 + x);
    MarkerPrefix(m1, m2 + x);
    assert CleanSubject(m1 + (m2 + x)) == Strip(m2 + x) by {
      CleanSubjectDropsMarker(m1, m2 + x);
    }
    StripKeepsMarker(m2, x);
  }

  /** Stripping leaves a leading marker in place. */
  lemma StripKeepsMarker(m: string, x: string)
    requires IsMarker(m)
    ensures StartsWith(Strip(m + x), m)
  {
    var y := m + x;
    MarkerEnds(m);
    assert y[0] == m[0];
    assert TrimStart(y) == y;
    TrimEndKeepsPrefix(m, x);
  }

  /** The whitespace-free content of a string. */
  function NonSpace(s: string): string
  {
    if s == [] then [] else (if IsSpace(s[0]) then [] else [s[0]]) + NonSpace(s[1..])
  }

  lemma {:induction false} NonSpaceSkipsLeadingSpace(s: string)
    ensures NonSpace(TrimStart(s)) == NonSpace(s)
    decreases |s|
  {
    if |s| > 0 && IsSpace(s[0]) {
      NonSpaceSkipsLeadingSpace(s[1..]);
    }
  }

  /** Every whitespace character is a plain space and no two whitespace characters touch. */
  predicate Collapsed(r: string)
  {
    (forall i :: 0 <= i < |r| && IsSpace(r[i]) ==> r[i] == ' ')
    && (forall i :: 0 <= i < |r| - 1 && IsSpace(r[i]) ==> !IsSpace(r[i + 1]))
  }

  /** `re.sub(r'\s+', ' ', body)`: every whitespace run becomes one space. */
  function Collapse(s: string): (r: string)
    ensures |r| <= |s|
    ensures r == [] <==> s == []
    ensures s != [] && IsSpace(s[0]) ==> r[0] == ' '
    ensures s != [] && !IsSpace(s[0]) ==> r[0] == s[0]
    ensures Collapsed(r)
    ensures NonSpace(r) == NonSpace(s)
    decreases |s|
  {
    if s == [] then []
    else if IsSpace(s[0]) then
      var t := TrimStart(s);
      NonSpaceSkipsLeadingSpace(s);
      var c := Collapse(t);
      assert ([' '] + c)[1..] == c;
      [' '] + c
    else
      var c := Collapse(s[1..]);
      assert ([s[0]] + c)[1..] == c;
      [s[0]] + c
  }

  /** Collapsing keeps the words: no two words are glued together and none is split. */
  lemma {:induction false} CollapseKeepsWords(s: string)
    ensures Split(Collapse(s)) == Split(s)
    decreases |s|
  {
    if s != [] && IsSpace(s[0]) {
      var t := TrimStart(s);
      var c := Collapse(t);
      CollapseKeepsWords(t);
      var r := [' '] + c;
      assert r == Collapse(s);
      assert r[1..] == c;
      assert TrimStart(c) == c;
      assert TrimStart(r) == c;
      SplitTrim(r);
      SplitTrim(s);
    } else if s != [] {
      var y := s[1..];
      CollapseKeepsWords(y);
      assert Collapse(s) == [s[0]] + Collapse(y);
      SameWordsAfter(s[0], Collapse(y), y);
      HeadTail(s);
    }
  }

  lemma HeadTail(s: string)
    requires s != []
    ensures [s[0]] + s[1..] == s
  {
  }

  /** Two tails with the same words and the same kind of first character keep the same words
      behind a non-whitespace character. */
  lemma SameWordsAfter(a: char, c: string, y: string)
    requires !IsSpace(a) && Split(c) == Split(y)
    requires c == [] <==> y == []
    requires y != [] ==> (IsSpace(c[0]) <==> IsSpace(y[0]))
    ensures Split([a] + c) == Split([a] + y)
  {
    SplitCons(a, c);
    SplitCons(a, y);
    if y == [] || IsSpace(y[0]) {
      assert Split([a] + c) == [[a]] + Split(c);
      assert Split([a] + y) == [[a]] + Split(y);
    } else {
      assert Split([a] + c) == [[a] + Split(c)[0]] + Split(c)[1..];
      assert Split([a] + y) == [[a] + Split(y)[0]] + Split(y)[1..];
    }
  }

  /** A collapsed string is left as it is. */
  lemma {:induction false} CollapseIdentity(s: string)
    requires Collapsed(s)
    ensures Collapse(s) == s
    decreases |s|
  {
    if s != [] {
      assert Collapsed(s[1..]);
      CollapseIdentity(s[1..]);
      if IsSpace(s[0]) {
        assert s[1..] == [] || !IsSpace(s[1..][0]);
        assert TrimStart(s[1..]) == s[1..];
      }
    }
  }

  lemma CollapsedSlice(s: string, a: nat, b: nat)
    requires a <= b <= |s| && Collapsed(s)
    ensures Collapsed(s[a..b])
  {
    var t := s[a..b];
    assert forall i :: 0 <= i < |t| ==> t[i] == s[a + i];
  }

  /** `re.sub(r'-{2,}.*$', '', body, flags=re.DOTALL)`: everything from the first "--" on
      is cut. */
  function CutSignature(s: string): (r: string)
    ensures StartsWith(s, r)
    ensures !Contains(r, "--")
    ensures |r| < |s| ==> StartsWith(s[|r|..], "--")
    ensures !Contains(s, "--") ==> r == s
    ensures forall i :: 0 <= i < |r| ==> !StartsWith(s[i..], "--")
    decreases |s|
  {
    if StartsWith(s, "--") then []
    else if s == [] then []
    else
      var t := CutSignature(s[1..]);
      var r := [s[0]] + t;
      assert r[1..] == t;
      assert !StartsWith(r, "--") by {
        if |r| >= 2 {
          assert r[..2] == [s[0], t[0]] == s[..2];
        }
      }
      assert s[|r|..] == s[1..][|t|..];
      assert forall i :: 1 <= i < |r| ==> s[i..] == s[1..][i - 1..];
      r
  }

  lemma NotContainsSlice(s: string, a: nat, b: nat, p: string)
    requires a <= b <= |s| && !Contains(s, p)
    ensures !Contains(s[a..b], p)
  {
    if Contains(s[a..b], p) {
      ContainsSlice(s, a, b, p);
    }
  }

  lemma StripKeepsCollapsed(c: string)
    requires Collapsed(c)
    ensures Collapsed(Strip(c))
  {
    var t := |c| - |TrimStart(c)|;
    CollapsedSlice(c, t, t + |Strip(c)|);
  }

  lemma StripKeepsNoSignature(c: string)
    requires !Contains(c, "--")
    ensures !Contains(Strip(c), "--")
  {
    var t := |c| - |TrimStart(c)|;
    NotContainsSlice(c, t, t + |Strip(c)|, "--");
  }

  /** `_clean_body`: collapsed whitespace, signature cut, stripped. */
  function CleanBody(b: string): (r: string)
    ensures r == [] || (!IsSpace(r[0]) && !IsSpace(r[|r| - 1]))
    ensures Collapsed(r)
    ensures !Contains(r, "--")
  {
    var c := CutSignature(Collapse(b));
    CollapsedSlice(Collapse(b), 0, |c|);
    assert Collapse(b)[0..|c|] == c;
    StripKeepsCollapsed(c);
    StripKeepsNoSignature(c);
    Strip(c)
  }

  /** Cleaning a cleaned body changes nothing. */
  lemma CleanBodyIdempotent(b: string)
    ensures CleanBody(CleanBody(b)) == CleanBody(b)
  {
    var x := CleanBody(b);
    CollapseIdentity(x);
    StripIdentity(x);
  }

  lemma StripIsSubstring(c: string)
    ensures Contains(c, Strip(c))
  {
    var t := |c| - |TrimStart(c)|;
    assert StartsWith(c[t..t + |Strip(c)|], Strip(c));
    ContainsSlice(c, t, t + |Strip(c)|, Strip(c));
  }

  /** The cleaned body is a piece of the whitespace-collapsed body: cleaning drops text and
      never adds any. */
  lemma CleanBodyNoNewContent(b: string)
    ensures Contains(Collapse(b), CleanBody(b))
  {
    var c := CutSignature(Collapse(b));
    StripIsSubstring(c);
    assert Collapse(b)[0..|c|] == c;
    ContainsSlice(Collapse(b), 0, |c|, Strip(c));
  }

  datatype Metadata = Metadata(hasLinks: bool, hasPhone: bool, wordCount: nat, hasQuestion: bool)

  predicate IsDigit(c: char)
  {
    '0' <= c <= '9'
  }

  /** Word characters for `\b`, restricted to ASCII. */
  predicate IsWordChar(c: char)
  {
    IsDigit(c) || ('a' <= c <= 'z') || ('A' <= c <= 'Z') || c == '_'
  }

  predicate DigitsAt(s: string, i: nat, n: nat)
  {
    i + n <= |s| && forall k :: i <= k < i + n ==> IsDigit(s[k])
  }

  /** `[-.]?` at position i: where the digits after it start. Taking the separator whenever it
      is there loses no match, since a separator is never a digit. */
  function SkipSeparator(s: string, i: nat): nat
  {
    if i < |s| && (s[i] == '-' || s[i] == '.') then i + 1 else i
  }

  /** Where a match starting at i ends. */
  function PhoneEnd(s: string, i: nat): nat
  {
    SkipSeparator(s, SkipSeparator(s, i + 3) + 3) + 4
  }

  /** `\b\d{3}[-.]?\d{3}[-.]?\d{4}\b` matches at position i. */
  predicate PhoneAt(s: string, i: nat)
  {
    (i == 0 || (i <= |s| && !IsWordChar(s[i - 1])))
    && DigitsAt(s, i, 3)
    && var j := SkipSeparator(s, i + 3);
    DigitsAt(s, j, 3)
    && var k := SkipSeparator(s, j + 3);
    DigitsAt(s, k, 4)
    && (k + 4 == |s| || !IsWordChar(s[k + 4]))
  }

  predicate HasPhone(s: string)
  {
    exists i: nat :: i < |s| && PhoneAt(s, i)
  }

  predicate IsSeparator(sep: string)
  {
    sep == "" || sep == "-" || sep == "."
  }

  lemma DigitsInside(u: string, d: string, v: string)
    requires forall k :: 0 <= k < |d| ==> IsDigit(d[k])
    ensures DigitsAt(u + d + v, |u|, |d|)
  {
    assert forall k :: 0 <= k < |d| ==> (u + d + v)[|u| + k] == d[k];
  }

  /** Where a group of digits starts after an optional separator. */
  lemma SeparatorSkipped(u: string, sep: string, d: string, v: string)
    requires IsSeparator(sep) && d != [] && IsDigit(d[0])
    ensures SkipSeparator(u + sep + d + v, |u|) == |u| + |sep|
  {
    var s := u + sep + d + v;
    if sep == "" {
      assert s == u + (d + v);
      assert s[|u|] == d[0];
    } else {
      assert s[|u|] == sep[0];
    }
  }

  /** The ten digits with their separators, on their own. */
  lemma PhoneShape(a: string, s1: string, b: string, s2: string, c: string)
    requires |a| == 3 && |b| == 3 && |c| == 4
    requires forall k :: 0 <= k < 3 ==> IsDigit(a[k]) && IsDigit(b[k])
    requires forall k :: 0 <= k < 4 ==> IsDigit(c[k])
    requires IsSeparator(s1) && IsSeparator(s2)
    ensures PhoneAt(a + s1 + b + s2 + c, 0)
    ensures PhoneEnd(a + s1 + b + s2 + c, 0) == |a + s1 + b + s2 + c|
  {
    var s := a + s1 + b + s2 + c;
    var j := 3 + |s1|;
    var k := j + 3 + |s2|;
    assert DigitsAt(s, 0, 3) by {
      assert s == [] + a + (s1 + b + s2 + c);
      DigitsInside([], a, s1 + b + s2 + c);
    }
    assert SkipSeparator(s, 3) == j by {
      assert s == a + s1 + b + (s2 + c);
      SeparatorSkipped(a, s1, b, s2 + c);
    }
    assert DigitsAt(s, j, 3) by {
      assert s == (a + s1) + b + (s2 + c);
      DigitsInside(a + s1, b, s2 + c);
    }
    assert SkipSeparator(s, j + 3) == k by {
      assert s == (a + s1 + b) + s2 + c + [];
      SeparatorSkipped(a + s1 + b, s2, c, []);
    }
    assert DigitsAt(s, k, 4) by {
      assert s == (a + s1 + b + s2) + c + [];
      DigitsInside(a + s1 + b + s2, c, []);
    }
  }

  /** Digits found in `ph` are found at the same place in a text around it. */
  lemma DigitsShift(pre: string, ph: string, post: string, start: nat, n: nat)
    requires DigitsAt(ph, start, n)
    ensures DigitsAt(pre + ph + post, |pre| + start, n)
  {
    var s := pre + ph + post;
    assert forall k :: |pre| + start <= k < |pre| + start + n ==> s[k] == ph[k - |pre|];
  }

  /** A separator inside `ph` is skipped at the same place in a text around it. */
  lemma SkipShift(pre: string, ph: string, post: string, x: nat)
    requires x < |ph|
    ensures SkipSeparator(pre + ph + post, |pre| + x) == |pre| + SkipSeparator(ph, x)
  {
    assert (pre + ph + post)[|pre| + x] == ph[x];
  }

  /** Text around a match that starts and ends with a non-word character keeps it a match. */
  lemma PhoneInContext(pre: string, ph: string, post: string)
    requires PhoneAt(ph, 0) && PhoneEnd(ph, 0) == |ph|
    requires pre == [] || !IsWordChar(pre[|pre| - 1])
    requires post == [] || !IsWordChar(post[0])
    ensures PhoneAt(pre + ph + post, |pre|)
  {
    var s := pre + ph + post;
    var i := |pre|;
    var j := SkipSeparator(ph, 3);
    var k := SkipSeparator(ph, j + 3);
    SkipShift(pre, ph, post, 3);
    SkipShift(pre, ph, post, j + 3);
    DigitsShift(pre, ph, post, 0, 3);
    DigitsShift(pre, ph, post, j, 3);
    DigitsShift(pre, ph, post, k, 4);
    if i > 0 {
      assert s[i - 1] == pre[|pre| - 1];
    }
    if post != [] {
      assert s[i + |ph|] == post[0];
    }
  }

  /** A ten-digit number, grouped 3-3-4 with optional '-' or '.' between groups and not glued
      to letters, digits or '_' on either side, is found. */
  lemma PhoneDetected(pre: string, a: string, s1: string, b: string, s2: string, c: string, post: string)
    requires |a| == 3 && |b| == 3 && |c| == 4
    requires forall k :: 0 <= k < 3 ==> IsDigit(a[k]) && IsDigit(b[k])
    requires forall k :: 0 <= k < 4 ==> IsDigit(c[k])
    requires IsSeparator(s1) && IsSeparator(s2)
    requires pre == [] || !IsWordChar(pre[|pre| - 1])
    requires post == [] || !IsWordChar(post[0])
    ensures HasPhone(pre + (a + s1 + b + s2 + c) + post)
  {
    var ph := a + s1 + b + s2 + c;
    PhoneShape(a, s1, b, s2, c);
    PhoneInContext(pre, ph, post);
    assert |pre| < |pre + ph + post|;
  }

  /** Eleven digits in a row are not a phone number: `\b` fails at both ends of any ten. */
  lemma ElevenDigitsAreNoPhone(s: string)
    requires |s| == 11 && forall k :: 0 <= k < |s| ==> IsDigit(s[k])
    ensures !HasPhone(s)
  {
    forall i: nat | i < |s| ensures !PhoneAt(s, i) {
      if i > 0 {
        assert IsWordChar(s[i - 1]);
      } else {
        assert SkipSeparator(s, 3) == 3;
        assert SkipSeparator(s, 6) == 6;
        assert IsWordChar(s[10]);
      }
    }
  }

  /** `_extract_metadata`, applied to the raw (uncleaned) body. */
  function ExtractMetadata(body: string): (m: Metadata)
    ensures m.hasLinks <==> Contains(body, "http://") || Contains(body, "https://")
    ensures m.hasPhone <==> HasPhone(body)
    ensures m.wordCount == RunCount(body)
    ensures m.hasQuestion <==> '?' in body
  {
    SplitCountsRuns(body);
    Metadata(Contains(body, "http://") || Contains(body, "https://"), HasPhone(body),
             |Split(body)|, '?' in body)
  }

  datatype ParsedEmail = ParsedEmail(sender: Sender, subject: string, body: string,
                                     receivedDate: Option<string>, hasAttachments: bool,
                                     metadata: Metadata)

  /** The tool's dict: `success` with the parsed data, or `success: False` with str(e). */
  datatype ParseResult = Parsed(email: ParsedEmail) | ParseError(error: string)

  /** str() of the TypeError that re.sub raises when handed None. */
  const NotAStringMessage := "expected string or bytes-like object, got 'NoneType'"

  /** `EmailParser.execute`. A null subject or body makes re.sub raise; a null sender does not
      (parseaddr accepts it). */
  function Execute(raw: RawEmail, parseAddr: ParseAddr): (r: ParseResult)
    ensures r.ParseError? <==> raw.subject.Null? || raw.body.Null?
    ensures r.ParseError? ==> r.error == NotAStringMessage
    ensures r.Parsed? ==>
              && r.email.sender == ParseSender(raw.sender, parseAddr)
              && r.email.subject == CleanSubject(StrOf(raw.subject))
              && r.email.body == CleanBody(StrOf(raw.body))
              && r.email.metadata == ExtractMetadata(StrOf(raw.body))
              && r.email.hasAttachments == raw.hasAttachments.GetOr(false)
              && (r.email.receivedDate.Some? <==> raw.receivedDate.Str?)
              && (raw.receivedDate.Str? ==> r.email.receivedDate == Some(raw.receivedDate.s))
  {
    if raw.subject.Null? || raw.body.Null? then ParseError(NotAStringMessage)
    else
      Parsed(ParsedEmail(ParseSender(raw.sender, parseAddr), CleanSubject(StrOf(raw.subject)),
                         CleanBody(StrOf(raw.body)),
                         if raw.receivedDate.Str? then Some(raw.receivedDate.s) else None,
                         raw.hasAttachments.GetOr(false), ExtractMetadata(StrOf(raw.body))))
  }
}
