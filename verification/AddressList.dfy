/** Comma-separated lists of IPv4 addresses: the text the data model reads and writes, and its parser and printer. */
module AddressList {
  import opened WanTypes

  const NUL := '\0'
  const INADDR_NONE := 0xFFFF_FFFF
  /** DML_DHCP_MAX_ENTRIES */
  const MAX_ENTRIES := 4

  // ---- dotted quads ----

  /** Neither a separator nor the end of a string. */
  predicate Plain(t: string) {
    forall j | 0 <= j < |t| :: t[j] != ',' && t[j] != NUL
  }

  function Digit(d: nat): char
    requires d < 10
  {
    ['0', '1', '2', '3', '4', '5', '6', '7', '8', '9'][d]
  }

  function Decimal(b: nat): (r: string)
    requires b < 256
    ensures 1 <= |r| <= 3 && Plain(r)
  {
    if b < 10 then [Digit(b)]
    else if b < 100 then [Digit(b / 10), Digit(b % 10)]
    else [Digit(b / 100), Digit(b / 10 % 10), Digit(b % 10)]
  }

  /** inet_ntoa on the four octets of an address in memory order. */
  function Ntoa(a: nat): (r: string)
    ensures 7 <= |r| <= 15 && Plain(r)
  {
    Decimal(a % 256) + "." + Decimal(a / 0x100 % 256) + "." + Decimal(a / 0x1_0000 % 256) + "." +
    Decimal(a / 0x100_0000 % 256)
  }

  // ---- the text as a list ----

  function FirstComma(s: string): (k: nat)
    ensures k <= |s| && (k < |s| ==> s[k] == ',') && forall j | 0 <= j < k :: s[j] != ','
  {
    if s == [] || s[0] == ',' then 0 else 1 + FirstComma(s[1..])
  }

  function Split(s: string): (r: seq<string>)
    ensures r != []
    decreases |s|
  {
    var k := FirstComma(s);
    if k == |s| then [s] else [s[..k]] + Split(s[k + 1..])
  }

  /** Each text followed by a comma. */
  function Terminated(texts: seq<string>): (r: string) {
    if texts == [] then [] else Terminated(texts[..|texts| - 1]) + texts[|texts| - 1] + ","
  }

  /** The texts with commas between them. */
  function Join(texts: seq<string>): string {
    var t := Terminated(texts);
    if t == [] then [] else t[..|t| - 1]
  }

  /** The string that starts at position j of a buffer. */
  function CString(s: seq<char>, j: nat): (r: string)
    requires j <= |s|
    ensures |r| <= |s| - j
    decreases |s| - j
  {
    if j == |s| || s[j] == NUL then [] else [s[j]] + CString(s, j + 1)
  }

  // ---- parsing ----

  /** All texts denote addresses. */
  predicate AllParse(texts: seq<string>, aton: string -> nat) {
    forall t | t in texts :: aton(t) != INADDR_NONE
  }

  function Numbers(texts: seq<string>, aton: string -> nat): (r: seq<nat>)
    ensures |r| == |texts|
  {
    seq(|texts|, k requires 0 <= k < |texts| => aton(texts[k]))
  }

  /** The entries, and zeros behind them. */
  function Padded(numbers: seq<nat>, max: nat): (r: seq<nat>)
    requires |numbers| <= max
    ensures |r| == max && r[..|numbers|] == numbers && forall k | |numbers| <= k < max :: r[k] == 0
  {
    numbers + seq(max - |numbers|, k => 0)
  }

  /**
   What a text means: at most max entries; a last entry of one character or none is no entry, and one of two to six
   characters is an error.
   */
  function Meaning(s: string, max: nat, aton: string -> nat): Option<seq<nat>> {
    var parts := Split(s);
    var n := |parts| - 1;
    var last := parts[n];
    if n >= max || !AllParse(parts[..n], aton) then None
    else if |last| >= 7 then
      if aton(last) == INADDR_NONE then None else Some(Padded(Numbers(parts, aton), max))
    else if |last| > 1 then None
    else Some(Padded(Numbers(parts[..n], aton), max))
  }

  /**
   Entry by entry: every entry before the last one must be an address, the last one must be an address or too short to
   be one, and the places behind the entries are zero.
   */
  lemma MeaningByEntries(s: string, max: nat, aton: string -> nat)
    ensures var parts, m := Split(s), Meaning(s, max, aton);
            var n := |parts| - 1;
            && (m.Some? <==>
                  && n < max && (forall k | 0 <= k < n :: aton(parts[k]) != 0xFFFF_FFFF)
                  && (|parts[n]| <= 1 || (|parts[n]| >= 7 && aton(parts[n]) != 0xFFFF_FFFF)))
            && (m.Some? ==>
                  && |m.value| == max
                  && forall k | 0 <= k < max ::
                       m.value[k] == if k < n || (k == n && |parts[n]| >= 7) then aton(parts[k]) else 0)
  {
    var parts := Split(s);
    var n := |parts| - 1;
    hide Split;
    assert AllParse(parts[..n], aton) <==> forall k | 0 <= k < n :: aton(parts[k]) != 0xFFFF_FFFF by {
      FrontParses(parts, aton);
    }
  }

  lemma FrontParses(parts: seq<string>, aton: string -> nat)
    requires parts != []
    ensures AllParse(parts[..|parts| - 1], aton) <==> forall k | 0 <= k < |parts| - 1 :: aton(parts[k]) != 0xFFFF_FFFF
  {
    var front := parts[..|parts| - 1];
    if AllParse(front, aton) {
      forall k | 0 <= k < |front| ensures aton(parts[k]) != 0xFFFF_FFFF {
        assert front[k] in front;
      }
    }
  }

  // ---- lemmas about texts ----

  lemma {:induction false} CStringOfPrefix(s: seq<char>, j: nat, n: nat)
    requires j <= n < |s| && s[n] == NUL && forall k | j <= k < n :: s[k] != NUL
    ensures CString(s, j) == s[j..n]
    decreases n - j
  {
    if j < n {
      CStringOfPrefix(s, j + 1, n);
    }
  }

  lemma {:induction false} SplitAtComma(s: string, k: nat)
    requires k < |s| && s[k] == ',' && forall j | 0 <= j < k :: s[j] != ','
    ensures Split(s) == [s[..k]] + Split(s[k + 1..])
  {
    assert FirstComma(s) == k;
  }

  lemma SplitWithoutComma(s: string)
    requires Plain(s)
    ensures Split(s) == [s]
  {
    var k := FirstComma(s);
    assert k == |s|;
  }

  lemma {:induction false} SplitOfJoin(texts: seq<string>)
    requires texts != [] && forall k | 0 <= k < |texts| :: Plain(texts[k])
    ensures Split(Join(texts)) == texts
  {
    var t := texts[0];
    if |texts| == 1 {
      assert texts[..0] == [];
      assert Terminated(texts) == t + ",";
      assert Join(texts) == t;
      SplitWithoutComma(t);
    } else {
      JoinFront(texts);
      SplitFront(t, Join(texts[1..]));
      SplitOfJoin(texts[1..]);
    }
  }

  lemma SplitFront(t: string, rest: string)
    requires Plain(t)
    ensures Split(t + "," + rest) == [t] + Split(rest)
  {
    var s := t + "," + rest;
    SplitAtComma(s, |t|);
    assert s[..|t|] == t && s[|t| + 1..] == rest;
  }

  lemma {:induction false} TerminatedFront(texts: seq<string>)
    requires texts != []
    ensures Terminated(texts) == texts[0] + "," + Terminated(texts[1..])
  {
    var n := |texts| - 1;
    if n > 0 {
      TerminatedFront(texts[..n]);
      assert texts[..n][1..] == texts[1..][..n - 1];
    }
  }

  lemma JoinFront(texts: seq<string>)
    requires |texts| > 1
    ensures Join(texts) == texts[0] + "," + Join(texts[1..])
  {
    TerminatedFront(texts);
    assert Terminated(texts[1..]) != [];
  }

  // ---- the parser ----

  /** The difference of two unsigned positions wraps around. */
  function UnsignedDifference(i: nat, j: nat): (r: nat)
    requires j <= i + 1
    ensures if i >= j then r == i - j else r > 7
  {
    if i >= j then i - j else 0x1_0000_0000_0000_0000 - (j - i)
  }

  /** A string that ends before the end of its buffer. */
  predicate IsCString(s: seq<char>, n: nat) {
    n < |s| && s[n] == NUL && forall k | 0 <= k < n :: s[k] != NUL
  }

  /** Converts the token from j to the comma at i: the comma is overwritten and put back. */
  method Token(text: array<char>, j: nat, i: nat, aton: string -> nat) returns (x: nat)
    requires j <= i < text.Length && forall k | j <= k < i :: text[k] != NUL
    modifies text
    ensures text[..] == old(text[..]) && x == aton(old(text[j..i]))
  {
    var saved := text[i];
    text[i] := NUL;
    CStringOfPrefix(text[..], j, i);
    x := aton(CString(text[..], j));
    assert text[..][j..i] == old(text[j..i]);
    text[i] := saved;
  }

  lemma CutAtComma(s: string, j: nat, i: nat)
    requires j <= i < |s| && s[i] == ',' && forall k | j <= k < i :: s[k] != ','
    ensures Split(s[j..]) == [s[j..i]] + Split(s[i + 1..])
  {
    var rest := s[j..];
    SplitAtComma(rest, i - j);
    hide Split;
    assert rest[..i - j] == s[j..i];
    assert rest[i - j + 1..] == s[i + 1..];
  }

  /** What stands before the next comma is the next entry. */
  lemma NextEntry(s: string, done: seq<string>, j: nat, i: nat)
    requires j <= i < |s| && s[i] == ',' && forall k | j <= k < i :: s[k] != ','
    requires Split(s) == done + Split(s[j..])
    ensures Split(s) == (done + [s[j..i]]) + Split(s[i + 1..])
  {
    hide Split;
    CutAtComma(s, j, i);
    Regrouped(done, s[j..i], Split(s[i + 1..]));
  }

  lemma Regrouped(a: seq<string>, x: string, c: seq<string>)
    ensures a + ([x] + c) == (a + [x]) + c
  {
  }

  /** What follows the last comma is the last entry. */
  lemma LastEntry(s: string, done: seq<string>, j: nat)
    requires j <= |s| && Split(s) == done + Split(s[j..]) && forall k | j <= k < |s| :: s[k] != ','
    ensures Split(s) == done + [s[j..]] && Split(s)[..|done|] == done
  {
    assert FirstComma(s[j..]) == |s[j..]|;
  }

  /** A bad entry before a comma, or a comma after the last possible entry, spoils the whole text. */
  lemma Spoiled(s: string, done: seq<string>, more: seq<string>, max: nat, aton: string -> nat)
    requires Split(s) == done + more && more != [] && done != []
    requires aton(done[|done| - 1]) == INADDR_NONE || |done| >= max
    ensures Meaning(s, max, aton) == None
  {
    var front := Split(s)[..|Split(s)| - 1];
    if |done| < max {
      assert front[|done| - 1] == done[|done| - 1];
      assert done[|done| - 1] in front;
    }
  }

  /** The scan over the commas: bad stands for an unusable entry, otherwise i is the end or max entries were found. */
  method Scan(text: array<char>, ghost n: nat, max: nat, aton: string -> nat)
    returns (bad: bool, i: nat, j: nat, found: seq<nat>, ghost done: seq<string>)
    requires 0 < max && IsCString(text[..], n)
    modifies text
    ensures text[..] == old(text[..])
    ensures bad ==> Meaning(text[..n], max, aton) == None
    ensures !bad ==>
              && j <= i + 1 && j <= n && found == Numbers(done, aton) && AllParse(done, aton) && |done| <= max
              && Split(text[..n]) == done + Split(text[..n][j..])
              && (if |done| < max then j <= i == n && forall k | j <= k < n :: text[k] != ','
                  else j == i + 1 && Meaning(text[..n], max, aton) == None)
  {
    hide Meaning; hide Split;
    ghost var s := text[..n];
    i, j, found, done := 0, 0, [], [];
    assert s[0..] == s;
    while text[i] != NUL
      invariant j <= i <= n && text[..] == old(text[..])
      invariant |done| < max && AllParse(done, aton) && found == Numbers(done, aton)
      invariant Split(s) == done + Split(s[j..]) && forall k | j <= k < i :: s[k] != ','
      decreases n - i
    {
      if text[i] == ',' {
        ghost var token := text[j..i];
        assert token == s[j..i];
        var x := Token(text, j, i, aton);
        NextEntry(s, done, j, i);
        done := done + [token];
        if x == INADDR_NONE {
          Spoiled(s, done, Split(s[i + 1..]), max, aton);
          return true, i, j, found, done;
        }
        found := found + [x];
        j := i + 1;
        if |found| >= max {
          Spoiled(s, done, Split(s[i + 1..]), max, aton);
          return false, i, j, found, done;
        }
      }
      i := i + 1;
    }
    bad := false;
  }

  /** WanMgr_DmlSetIpaddr; a trailing comma after the last possible entry makes the difference wrap around. */
  method SetIpaddr(ips: array<nat>, text: array<char>, ghost n: nat, max: nat, aton: string -> nat) returns (ok: bool)
    requires max <= MAX_ENTRIES && max <= ips.Length && IsCString(text[..], n)
    modifies ips, text
    ensures text[..] == old(text[..])
    ensures ok <==> max > 0 && Meaning(text[..n], max, aton).Some?
    ensures ok ==> ips[..max] == Meaning(text[..n], max, aton).value && ips[max..] == old(ips[max..])
    ensures ok ==> var parts := Split(text[..n]);
                   forall k | 0 <= k < max ::
                     ips[k] == if k < |parts| - 1 || (k < |parts| && |parts[k]| >= 7) then aton(parts[k]) else 0
    ensures !ok ==> ips[..] == old(ips[..])
  {
    if max == 0 {
      return false;
    }
    hide UnsignedDifference; hide Split; hide Meaning;
    var bad, i, j, found, done := Scan(text, n, max, aton);
    if bad {
      return false;
    }
    if |found| < max {
      LastEntry(text[..n], done, j);
      LastMeaning(text[..n], done, j, max, aton);
    }
    if |found| < max && UnsignedDifference(i, j) >= 7 {
      CStringOfPrefix(text[..], j, n);
      var x := aton(CString(text[..], j));
      assert text[..][j..n] == text[..n][j..];
      if x == INADDR_NONE {
        return false;
      }
      found := found + [x];
    } else if UnsignedDifference(i, j) > 1 {
      return false;
    }
    assert Meaning(text[..n], max, aton) == Some(Padded(found, max));
    MeaningByEntries(text[..n], max, aton);
    CopyOut(ips, found, max);
    assert forall k | 0 <= k < max :: ips[k] == ips[..max][k];
    return true;
  }

  lemma NumbersOfOneMore(done: seq<string>, last: string, aton: string -> nat)
    ensures Numbers(done + [last], aton) == Numbers(done, aton) + [aton(last)]
  {
  }

  /** The meaning of a text whose entries before the last are known to be good. */
  lemma LastMeaning(s: string, done: seq<string>, j: nat, max: nat, aton: string -> nat)
    requires j <= |s| && Split(s) == done + [s[j..]] && AllParse(done, aton) && |done| < max
    ensures var found := Numbers(done, aton);
            var x := aton(s[j..]);
            Meaning(s, max, aton) ==
            if |s| - j >= 7 then (if x == INADDR_NONE then None else Some(Padded(found + [x], max)))
            else if |s| - j > 1 then None
            else Some(Padded(found, max))
  {
    hide Split; hide Padded;
    assert Split(s)[..|done|] == done;
    NumbersOfOneMore(done, s[j..], aton);
    hide Numbers; hide AllParse;
  }

  method CopyOut(ips: array<nat>, found: seq<nat>, max: nat)
    requires |found| <= max <= ips.Length
    modifies ips
    ensures ips[..max] == Padded(found, max) && ips[max..] == old(ips[max..])
  {
    var k := 0;
    while k < max
      invariant 0 <= k <= max
      invariant ips[..k] == Padded(found, max)[..k] && ips[max..] == old(ips[max..])
    {
      ips[k] := if k < |found| then found[k] else 0;
      k := k + 1;
    }
  }

  // ---- the printer ----

  /** The addresses before the first zero. */
  function Used(ips: seq<nat>): (r: seq<nat>)
    ensures |r| <= |ips| && r == ips[..|r|] && (|r| < |ips| ==> ips[|r|] == 0) && forall a | a in r :: a != 0
  {
    if ips == [] || ips[0] == 0 then [] else [ips[0]] + Used(ips[1..])
  }

  predicate IsQuad(t: string) {
    Plain(t) && 7 <= |t| <= 15
  }

  function Quad(a: nat): (r: string)
    ensures IsQuad(r)
  {
    Ntoa(a)
  }

  function Texts(ips: seq<nat>): (r: seq<string>)
    ensures |r| == |ips| && forall k | 0 <= k < |r| :: r[k] == Quad(ips[k])
  {
    seq(|ips|, k requires 0 <= k < |ips| => Quad(ips[k]))
  }

  /** The room left after printing these addresses, each with its comma. */
  function Room(len: nat, ips: seq<nat>): int {
    len - |Terminated(Texts(ips))|
  }

  /** strcpy and the comma that replaces its terminator. */
  method PutAddress(buf: array<char>, pos: nat, t: string)
    requires pos + |t| + 1 < buf.Length && Plain(t)
    modifies buf
    ensures buf[..] == old(buf[..pos]) + t + "," + old(buf[pos + |t| + 1..])
  {
    var k := 0;
    while k < |t|
      invariant 0 <= k <= |t|
      invariant forall i | 0 <= i < buf.Length :: buf[i] == if pos <= i < pos + k then t[i - pos] else old(buf[i])
    {
      buf[pos + k] := t[k];
      k := k + 1;
    }
    buf[pos + |t|] := NUL;
    buf[pos + |t|] := ',';
    assert forall i | 0 <= i < buf.Length ::
        buf[..][i] == (old(buf[..pos]) + t + "," + old(buf[pos + |t| + 1..]))[i];
  }

  /** The length of the string at a position, counted up to its terminator. */
  method StringLength(buf: array<char>, pos: nat, ghost n: nat) returns (k: nat)
    requires pos + n < buf.Length && buf[pos + n] == NUL && forall j | pos <= j < pos + n :: buf[j] != NUL
    ensures k == n
  {
    k := 0;
    while buf[pos + k] != NUL
      invariant 0 <= k <= n
      decreases n - k
    {
      k := k + 1;
    }
  }

  lemma {:induction false} RoomShrinks(len: nat, ips: seq<nat>, k: nat)
    requires k <= |ips|
    ensures Room(len, ips) <= Room(len, ips[..k])
    decreases |ips|
  {
    if k == |ips| {
      assert ips[..k] == ips;
    } else {
      var n := |ips| - 1;
      RoomShrinks(len, ips[..n], k);
      assert ips[..n][..k] == ips[..k] && Texts(ips)[..n] == Texts(ips[..n]);
    }
  }

  lemma TerminatedGrows(ips: seq<nat>, k: nat)
    requires k < |ips|
    ensures Terminated(Texts(ips[..k + 1])) == Terminated(Texts(ips[..k])) + Quad(ips[k]) + ","
  {
    hide Quad;
    assert ips[..k + 1][..k] == ips[..k];
    assert Texts(ips[..k + 1])[..k] == Texts(ips[..k]);
  }

  predicate Printed(s: seq<char>, used: seq<nat>, n: nat, pos: nat)
    requires n <= |used|
  {
    && pos <= |s| && s[..pos] == Terminated(Texts(used[..n]))
    && forall k | pos <= k < |s| :: s[k] == NUL
  }

  /** The printing loop: it ends after the last address, or when 15 characters or fewer are left. */
  method PrintAll(buf: array<char>, len: nat, ips: seq<nat>, max: nat) returns (pos: nat, n: nat)
    requires len < buf.Length && max <= |ips| && forall k | 0 <= k < buf.Length :: buf[k] == NUL
    modifies buf
    ensures var used := Used(ips[..max]);
            n <= |used| && Printed(buf[..], used, n, pos) && pos <= len && (n < |used| ==> len - pos <= 15)
  {
    hide Quad; hide Terminated; hide Texts;
    ghost var used := Used(ips[..max]);
    pos, n := 0, 0;
    NothingPrinted(buf[..], used);
    while n < max && ips[n] != 0 && len - pos > 15
      invariant 0 <= n <= |used| && pos <= len && Printed(buf[..], used, n, pos)
    {
      UsedEntry(ips[..max], n);
      TerminatedGrows(used, n);
      var t := Quad(ips[n]);
      PutAddress(buf, pos, t);
      var k := StringLength(buf, pos, |t| + 1);
      pos := pos + k;
      n := n + 1;
    }
    if n < |used| {
      assert used[n] in used && used[n] == ips[..max][n];
    }
  }

  lemma NothingPrinted(s: seq<char>, used: seq<nat>)
    requires forall k | 0 <= k < |s| :: s[k] == NUL
    ensures Printed(s, used, 0, 0)
  {
    assert Texts(used[..0]) == [];
  }

  lemma UsedEntry(ips: seq<nat>, n: nat)
    requires n < |ips| && n <= |Used(ips)| && ips[n] != 0
    ensures n < |Used(ips)| && Used(ips)[n] == ips[n]
  {
  }

  /**
   WanMgr_DmlGetIpaddrString on a zeroed buffer with room for a terminator behind the stated length: it succeeds
   exactly when more than 15 characters are left after everything it had to print.
   */
  method GetIpaddrString(buf: array<char>, len: nat, ips: seq<nat>, max: nat) returns (ok: bool, needed: nat)
    requires len < buf.Length && max <= |ips| && forall k | 0 <= k < buf.Length :: buf[k] == NUL
    modifies buf
    ensures ok <==> max > 0 && Room(len, Used(ips[..max])) > 15
    ensures ok ==> IsCString(buf[..], |Join(Texts(Used(ips[..max])))|)
    ensures ok ==> buf[..|Join(Texts(Used(ips[..max])))|] == Join(Texts(Used(ips[..max])))
    ensures needed == if ok || max == 0 then len else max * 16 + 1
  {
    hide Quad; hide Terminated; hide Texts;
    if max == 0 {
      return false, len;
    }
    ghost var used := Used(ips[..max]);
    var pos, n := PrintAll(buf, len, ips, max);
    RoomShrinks(len, used, n);
    assert used[..|used|] == used;
    NoNul(used[..n]);
    if pos != 0 {
      buf[pos - 1] := NUL;
    }
    if len - pos <= 15 {
      return false, max * 16 + 1;
    }
    assert used[..n] == used;
    ghost var joined := Join(Texts(used));
    assert |joined| == if pos == 0 then 0 else pos - 1;
    assert buf[..|joined|] == joined;
    assert forall k | 0 <= k < |joined| :: buf[..][k] == joined[k] && joined[k] == Terminated(Texts(used))[k];
    return true, len;
  }

  /** Nothing printed ends a string, and the last character printed is a comma. */
  lemma {:induction false} NoNul(ips: seq<nat>)
    ensures var t := Terminated(Texts(ips)); forall k | 0 <= k < |t| :: t[k] != NUL
  {
    hide Quad;
    var texts := Texts(ips);
    if ips == [] {
      assert texts == [];
    } else {
      var n := |ips| - 1;
      assert texts[..n] == Texts(ips[..n]);
      NoNul(ips[..n]);
      assert IsQuad(texts[n]);
      assert Terminated(texts) == Terminated(Texts(ips[..n])) + texts[n] + ",";
    }
  }

  // ---- reading dotted quads back ----

  predicate IsDigits(t: string) {
    forall j | 0 <= j < |t| :: '0' <= t[j] <= '9'
  }

  function ValueOf(t: string): (r: nat)
    requires IsDigits(t)
  {
    if t == [] then 0 else ValueOf(t[..|t| - 1]) * 10 + (t[|t| - 1] as int - '0' as int)
  }

  function ReadOctet(t: string): Option<nat> {
    if 1 <= |t| <= 3 && IsDigits(t) && ValueOf(t) < 256 then Some(ValueOf(t)) else None
  }

  function FirstDot(s: string): (k: nat)
    ensures k <= |s| && (k < |s| ==> s[k] == '.') && forall j | 0 <= j < k :: s[j] != '.'
  {
    if s == [] || s[0] == '.' then 0 else 1 + FirstDot(s[1..])
  }

  /** As many octets as stated, with dots between them, the first one in the lowest place. */
  function ReadOctets(s: string, count: nat): Option<nat> {
    if count <= 1 then ReadOctet(s)
    else
      var k := FirstDot(s);
      if k == |s| then None
      else match (ReadOctet(s[..k]), ReadOctets(s[k + 1..], count - 1))
        case (Some(b), Some(rest)) => Some(b + 256 * rest)
        case _ => None
  }

  /** inet_addr on dotted quads. */
  function ReadQuad(s: string): nat {
    match ReadOctets(s, 4)
    case Some(a) => a
    case None => INADDR_NONE
  }

  lemma OneMoreDigit(t: string, d: nat)
    requires IsDigits(t) && d < 10
    ensures IsDigits(t + [Digit(d)]) && ValueOf(t + [Digit(d)]) == ValueOf(t) * 10 + d
  {
    assert (t + [Digit(d)])[..|t|] == t;
  }

  /** The digits of a number below 100, and then of one below 1000. */
  lemma ShortNumberReads(d: nat, b: nat)
    requires d < 10 && b < 100
    ensures var one := [Digit(d)]; IsDigits(one) && ValueOf(one) == d
    ensures var two := [Digit(b / 10), Digit(b % 10)]; IsDigits(two) && ValueOf(two) == b
  {
    assert ValueOf([]) == 0;
    hide Digit; hide ValueOf;
    OneMoreDigit([], d);
    OneMoreDigit([], b / 10);
    OneMoreDigit([] + [Digit(b / 10)], b % 10);
    assert [] + [Digit(d)] == [Digit(d)] && [] + [Digit(b / 10)] + [Digit(b % 10)] == [Digit(b / 10), Digit(b % 10)];
  }

  lemma DigitsRead(b: nat)
    requires b < 256
    ensures IsDigits(Decimal(b)) && ReadOctet(Decimal(b)) == Some(b)
  {
    hide Digit; hide ValueOf; hide IsDigits;
    if b < 100 {
      ShortNumberReads(b % 10, b);
    } else {
      var two := [Digit(b / 100), Digit(b / 10 % 10)];
      ShortNumberReads(0, b / 10);
      OneMoreDigit(two, b % 10);
      assert two + [Digit(b % 10)] == Decimal(b);
    }
  }

  lemma {:induction false} DotAfterDigits(t: string, rest: string)
    requires IsDigits(t)
    ensures FirstDot(t + "." + rest) == |t|
  {
    var s := t + "." + rest;
    assert s[|t|] == '.' && forall j | 0 <= j < |t| :: s[j] == t[j];
  }

  lemma OctetThenRest(b: nat, rest: string, count: nat)
    requires b < 256 && count >= 1
    ensures ReadOctets(Decimal(b) + "." + rest, count + 1) ==
            match ReadOctets(rest, count) case Some(a) => Some(b + 256 * a) case None => None
  {
    hide ReadOctet; hide IsDigits; hide FirstDot;
    DigitsRead(b);
    DotAfterDigits(Decimal(b), rest);
    hide Decimal;
    var s := Decimal(b) + "." + rest;
    assert s[..|Decimal(b)|] == Decimal(b) && s[|Decimal(b)| + 1..] == rest;
  }

  lemma FourOctets(b0: nat, b1: nat, b2: nat, b3: nat)
    requires b0 < 256 && b1 < 256 && b2 < 256 && b3 < 256
    ensures ReadQuad(Decimal(b0) + "." + Decimal(b1) + "." + Decimal(b2) + "." + Decimal(b3)) ==
            b0 + 256 * (b1 + 256 * (b2 + 256 * b3))
  {
    hide Decimal; hide ReadOctets;
    var t3 := Decimal(b3);
    var t2 := Decimal(b2) + "." + t3;
    var t1 := Decimal(b1) + "." + t2;
    assert ReadOctets(t3, 1) == Some(b3) by { LastOctet(b3); }
    OctetThenRest(b2, t3, 1);
    OctetThenRest(b1, t2, 2);
    OctetThenRest(b0, t1, 3);
    assert Decimal(b0) + "." + Decimal(b1) + "." + Decimal(b2) + "." + Decimal(b3) == Decimal(b0) + "." + t1;
  }

  lemma LastOctet(b: nat)
    requires b < 256
    ensures ReadOctets(Decimal(b), 1) == Some(b)
  {
    DigitsRead(b);
  }

  /** Reading undoes printing for every 32-bit address. */
  lemma ReadPrinted(a: nat)
    requires a <= INADDR_NONE
    ensures ReadQuad(Quad(a)) == a
  {
    hide Decimal; hide ReadQuad;
    FourOctets(a % 256, a / 0x100 % 256, a / 0x1_0000 % 256, a / 0x100_0000 % 256);
    Octets(a);
  }

  /** The lowest octet is written first. */
  lemma QuadOfLoopback()
    ensures Quad(0x0100_007F) == "127.0.0.1" && ReadQuad("127.0.0.1") == 0x0100_007F
  {
    hide ReadQuad;
    assert Decimal(127) == "127" && Decimal(0) == "0" && Decimal(1) == "1";
    assert 0x0100_007F % 256 == 127 && 0x0100_007F / 0x100 % 256 == 0;
    assert 0x0100_007F / 0x1_0000 % 256 == 0 && 0x0100_007F / 0x100_0000 % 256 == 1;
    hide Decimal;
    assert "127" + "." + "0" + "." + "0" + "." + "1" == "127.0.0.1";
    ReadPrinted(0x0100_007F);
  }

  lemma Octets(a: nat)
    requires a <= INADDR_NONE
    ensures a % 256 + 256 * (a / 0x100 % 256 + 256 * (a / 0x1_0000 % 256 + 256 * (a / 0x100_0000 % 256))) == a
  {
  }

  // ---- printing and parsing ----

  predicate Are32Bit(ips: seq<nat>) {
    forall a | a in ips :: a <= INADDR_NONE
  }

  lemma NumbersOfTexts(ips: seq<nat>)
    requires Are32Bit(ips)
    ensures Numbers(Texts(ips), ReadQuad) == ips
    ensures AllParse(Texts(ips), ReadQuad) <==> INADDR_NONE !in ips
  {
    hide Quad; hide ReadQuad;
    var texts := Texts(ips);
    forall k | 0 <= k < |texts| ensures ReadQuad(texts[k]) == ips[k] {
      assert ips[k] in ips;
      ReadPrinted(ips[k]);
    }
    if INADDR_NONE in ips {
      var k :| 0 <= k < |ips| && ips[k] == INADDR_NONE;
      assert texts[k] in texts;
    }
  }

  /** A list of quads means their numbers when all of them parse, and nothing otherwise. */
  lemma MeaningOfQuads(texts: seq<string>, max: nat, aton: string -> nat)
    requires 0 < |texts| <= max && forall k | 0 <= k < |texts| :: IsQuad(texts[k])
    ensures Meaning(Join(texts), max, aton) ==
            if AllParse(texts, aton) then Some(Padded(Numbers(texts, aton), max)) else None
  {
    hide Join;
    SplitOfJoin(texts);
    hide Split;
    var n := |texts| - 1;
    assert texts == texts[..n] + [texts[n]];
    assert AllParse(texts, aton) <==> AllParse(texts[..n], aton) && aton(texts[n]) != INADDR_NONE;
  }

  lemma EmptyMeaning(max: nat, aton: string -> nat)
    requires max > 0
    ensures Meaning(Join([]), max, aton) == Some(Padded([], max))
  {
    SplitWithoutComma("");
    assert Numbers([], aton) == [];
  }

  lemma UsedAreEntries(ips: seq<nat>)
    ensures forall a | a in Used(ips) :: a in ips
  {
    assert forall a | a in ips[..|Used(ips)|] :: a in ips;
  }

  /** Parsing what the printer wrote gives the used addresses back, unless one of them reads as INADDR_NONE. */
  lemma ParsePrinted(ips: seq<nat>)
    requires 0 < |ips| && Are32Bit(ips)
    ensures Meaning(Join(Texts(Used(ips))), |ips|, ReadQuad) ==
            if INADDR_NONE in Used(ips) then None else Some(Padded(Used(ips), |ips|))
  {
    hide Quad; hide ReadQuad; hide Meaning; hide Join;
    var used := Used(ips);
    assert Are32Bit(used) by { UsedAreEntries(ips); }
    if used == [] {
      assert Texts(used) == [];
      EmptyMeaning(|ips|, ReadQuad);
    } else {
      NumbersOfTexts(used);
      MeaningOfQuads(Texts(used), |ips|, ReadQuad);
    }
  }

  /** Filling up with zeros restores a list exactly when it has nothing but zeros behind its used addresses. */
  lemma PaddedIsWhole(ips: seq<nat>, used: seq<nat>)
    requires |used| <= |ips| && used == ips[..|used|]
    ensures Padded(used, |ips|) == ips <==> forall k | |used| <= k < |ips| :: ips[k] == 0
  {
    var r := Padded(used, |ips|);
    assert forall k | 0 <= k < |used| :: r[k] == r[..|used|][k] && ips[k] == ips[..|used|][k];
  }

  /**
   A list that is printed for the data model and written back through it: the addresses before the first zero return,
   followed by zeros, exactly when the buffer had room and none of them is 255.255.255.255. The whole list returns
   exactly when nothing but zeros follows its first zero.
   */
  method WriteBack(buf: array<char>, len: nat, ips: seq<nat>, max: nat, out: array<nat>) returns (ok: bool)
    requires len < buf.Length && forall k | 0 <= k < buf.Length :: buf[k] == NUL
    requires max <= MAX_ENTRIES && max <= |ips| && max <= out.Length && Are32Bit(ips)
    modifies buf, out
    ensures var used := Used(ips[..max]);
            && (ok <==> max > 0 && Room(len, used) > 15 && INADDR_NONE !in used)
            && (ok ==> out[..max] == Padded(used, max) && out[max..] == old(out[max..]))
            && (ok ==> (out[..max] == ips[..max] <==> forall k | |used| <= k < max :: ips[k] == 0))
            && (!ok ==> out[..] == old(out[..]))
  {
    hide Meaning; hide ReadQuad; hide Quad; hide Join; hide Texts; hide Room; hide Padded;
    var needed;
    ok, needed := GetIpaddrString(buf, len, ips, max);
    if ok {
      ghost var used := Used(ips[..max]);
      assert forall a | a in ips[..max] :: a in ips;
      ParsePrinted(ips[..max]);
      ok := SetIpaddr(out, buf, |Join(Texts(used))|, max, ReadQuad);
      PaddedIsWhole(ips[..max], used);
    }
  }
}
