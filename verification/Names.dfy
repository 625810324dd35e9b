/** Names of the managed children. Names of Kubernetes objects are ASCII, so letters and digits are. */
module Names {
  import opened Wrappers
  import opened Text
  import Fnv

  predicate Alnum(c: char) {
    'a' <= c <= 'z' || '0' <= c <= '9' || 'A' <= c <= 'Z'
  }

  predicate IsDash(c: char) {
    c == '-'
  }

  predicate LabelChars(s: string) {
    forall i | 0 <= i < |s| :: LabelChar(s[i])
  }

  predicate NoDoubleDash(s: string) {
    forall i | 0 <= i < |s| - 1 :: !(s[i] == '-' && s[i + 1] == '-')
  }

  predicate LabelChar(c: char) {
    'a' <= c <= 'z' || '0' <= c <= '9' || c == '-'
  }

  /** A label of section 2.1 of RFC 1123, of any length, in which no two dashes meet. */
  predicate IsLabel(s: string) {
    && s != []
    && LabelChars(s)
    && s[0] != '-' && s[|s| - 1] != '-'
    && NoDoubleDash(s)
  }

  /** Every run of other characters becomes one dash. */
  function Collapse(s: string, lastDash: bool): string {
    if s == [] then []
    else if Alnum(s[0]) then [s[0]] + Collapse(s[1..], false)
    else if lastDash then Collapse(s[1..], true)
    else ['-'] + Collapse(s[1..], true)
  }

  const FALLBACK := "rstream"

  function DnsLabel(value: string): string {
    var value := TrimSpace(ToLower(value));
    var out := Trim(Collapse(value, false), IsDash);
    if out == "" then FALLBACK else out
  }

  /** The loop of `dnsLabel` with its builder and its `lastDash` flag. */
  method BuildCollapsed(v: string) returns (b: string)
    ensures b == Collapse(v, false)
  {
    var lastDash := false;
    b := "";
    for i := 0 to |v|
      invariant Collapse(v, false) == b + Collapse(v[i..], lastDash)
    {
      assert v[i..][0] == v[i] && v[i..][1..] == v[i + 1..];
      if Alnum(v[i]) {
        b := b + [v[i]];
        lastDash := false;
      } else if !lastDash {
        b := b + ['-'];
        lastDash := true;
      }
    }
  }

  method BuildDnsLabel(value: string) returns (out: string)
    ensures out == DnsLabel(value)
  {
    var v := TrimSpace(ToLower(value));
    if v == "" {
      TrimIsTrimmed("", IsDash);
      return FALLBACK;
    }
    var b := BuildCollapsed(v);
    out := Trim(b, IsDash);
    if out == "" {
      out := FALLBACK;
    }
  }

  lemma {:induction false} CollapseShape(s: string, lastDash: bool)
    requires IsLower(s)
    ensures var r := Collapse(s, lastDash);
            && LabelChars(r)
            && NoDoubleDash(r)
            && (lastDash && r != [] ==> r[0] != '-')
  {
    if s != [] {
      assert s[0] in s;
      assert forall c | c in s[1..] :: c in s;
      CollapseShape(s[1..], !Alnum(s[0]));
      if !Alnum(s[0]) && lastDash {
      } else {
        var rest := Collapse(s[1..], !Alnum(s[0]));
        var r := Collapse(s, lastDash);
        assert forall i | 0 < i < |r| :: r[i] == rest[i - 1];
      }
    }
  }

  /** `dnsLabel` always returns a valid label without a double dash. */
  lemma DnsLabelIsLabel(value: string)
    ensures IsLabel(DnsLabel(value))
  {
    TrimmedCollapseIsLabel(value);
    FallbackIsLabel();
  }

  lemma FallbackIsLabel()
    ensures IsLabel(FALLBACK)
  {
  }

  lemma TrimmedCollapseIsLabel(value: string)
    ensures var out := Trim(Collapse(TrimSpace(ToLower(value)), false), IsDash);
            out != "" ==> IsLabel(out)
  {
    hide Collapse, Trim, IsLabel;
    LoweredIsLower(value);
    var lo, hi := TrimIsPart(ToLower(value), IsSpace);
    var v := TrimSpace(ToLower(value));
    CollapseShape(v, false);
    TrimOfShape(Collapse(v, false));
  }

  lemma TrimOfShape(c: string)
    requires LabelChars(c) && NoDoubleDash(c)
    ensures Trim(c, IsDash) != "" ==> IsLabel(Trim(c, IsDash))
  {
    var lo, hi := TrimIsPart(c, IsDash);
    SliceOfShape(c, lo, hi);
  }

  lemma SliceOfShape(c: string, lo: nat, hi: nat)
    requires lo <= hi <= |c| && LabelChars(c) && NoDoubleDash(c)
    ensures LabelChars(c[lo..hi]) && NoDoubleDash(c[lo..hi])
  {
  }

  lemma {:induction false} CollapseOfLabel(s: string, lastDash: bool)
    requires LabelChars(s) && NoDoubleDash(s)
    requires lastDash && s != [] ==> s[0] != '-'
    ensures Collapse(s, lastDash) == s
  {
    if s != [] {
      assert s[0] in s;
      CollapseOfLabel(s[1..], s[0] == '-');
    }
  }

  /** A label is its own label, so `dnsLabel` is idempotent. */
  lemma DnsLabelIdempotent(value: string)
    ensures DnsLabel(DnsLabel(value)) == DnsLabel(value)
  {
    DnsLabelIsLabel(value);
    LabelIsFixed(DnsLabel(value));
  }

  lemma LabelIsFixed(s: string)
    requires IsLabel(s)
    ensures DnsLabel(s) == s
  {
    LabelIsNormal(s);
    CollapseOfLabel(s, false);
    TrimIsTrimmed(s, IsDash);
  }

  lemma LabelIsNormal(s: string)
    requires IsLabel(s)
    ensures TrimSpace(ToLower(s)) == s
  {
    forall c | c in s
      ensures !('A' <= c <= 'Z')
    {
      var i :| 0 <= i < |s| && s[i] == c;
      assert LabelChar(s[i]);
    }
    LowerIsFixed(s);
    assert LabelChar(s[0]) && LabelChar(s[|s| - 1]);
    TrimIsTrimmed(s, IsSpace);
  }

  /** The letters and digits of a text, in order. */
  function Letters(s: string): string {
    if s == [] then [] else (if Alnum(s[0]) then [s[0]] else []) + Letters(s[1..])
  }

  lemma {:induction false} LettersConcat(a: string, b: string)
    ensures Letters(a + b) == Letters(a) + Letters(b)
  {
    if a == [] {
      assert a + b == b;
    } else {
      assert (a + b)[0] == a[0] && (a + b)[1..] == a[1..] + b;
      LettersConcat(a[1..], b);
      var first := if Alnum(a[0]) then [a[0]] else [];
      assert first + (Letters(a[1..]) + Letters(b)) == first + Letters(a[1..]) + Letters(b);
    }
  }

  lemma {:induction false} LettersOfNone(s: string)
    requires forall i | 0 <= i < |s| :: !Alnum(s[i])
    ensures Letters(s) == []
  {
    if s != [] {
      LettersOfNone(s[1..]);
    }
  }

  lemma TrimKeepsLetters(s: string, cut: char -> bool)
    requires forall c | Alnum(c) :: !cut(c)
    ensures Letters(Trim(s, cut)) == Letters(s)
  {
    var lo, hi := TrimIsPart(s, cut);
    assert s == s[..lo] + s[lo..hi] + s[hi..];
    LettersConcat(s[..lo] + s[lo..hi], s[hi..]);
    LettersConcat(s[..lo], s[lo..hi]);
    LettersOfNone(s[..lo]);
    LettersOfNone(s[hi..]);
  }

  lemma {:induction false} CollapseKeepsLetters(s: string, lastDash: bool)
    ensures Letters(Collapse(s, lastDash)) == Letters(s)
  {
    if s != [] {
      CollapseKeepsLetters(s[1..], !Alnum(s[0]));
      LettersConcat([s[0]], Collapse(s[1..], !Alnum(s[0])));
      LettersConcat(['-'], Collapse(s[1..], true));
      assert Letters([s[0]]) == if Alnum(s[0]) then [s[0]] else [];
      assert Letters(['-']) == [];
    }
  }

  lemma LabelHasLetter(s: string)
    requires IsLabel(s)
    ensures Letters(s) != []
  {
    assert s[0] in s;
  }

  /** The label keeps exactly the letters and digits of the name, lower-cased and in order. */
  lemma DnsLabelKeepsLetters(value: string)
    ensures Letters(ToLower(value)) != [] ==> Letters(DnsLabel(value)) == Letters(ToLower(value))
    ensures Letters(ToLower(value)) == [] ==> DnsLabel(value) == FALLBACK
  {
    var lower := ToLower(value);
    TrimKeepsLetters(lower, IsSpace);
    var c := Collapse(TrimSpace(lower), false);
    CollapseKeepsLetters(TrimSpace(lower), false);
    TrimKeepsLetters(c, IsDash);
    var out := Trim(c, IsDash);
    if out != "" {
      TrimmedCollapseIsLabel(value);
      LabelHasLetter(out);
    }
  }

  /** The part of a tunnel's metadata that its children's names come from. */
  datatype Identity = Identity(namespace: string, name: string, uid: string)

  predicate IsAscii(s: string) {
    forall i | 0 <= i < |s| :: s[i] as int < 128
  }

  /** The UTF-8 form of a character, which is what Go's conversion of a string to bytes gives. */
  function Utf8(c: char): seq<Fnv.Byte> {
    var n := c as int;
    if n < 0x80 then [n]
    else if n < 0x800 then [0xC0 + n / 0x40, 0x80 + n % 0x40]
    else if n < 0x10000 then [0xE0 + n / 0x1000, 0x80 + n / 0x40 % 0x40, 0x80 + n % 0x40]
    else [0xF0 + n / 0x40000 % 8, 0x80 + n / 0x1000 % 0x40, 0x80 + n / 0x40 % 0x40, 0x80 + n % 0x40]
  }

  function Bytes(s: string): seq<Fnv.Byte> {
    if s == [] then [] else Utf8(s[0]) + Bytes(s[1..])
  }

  lemma {:induction false} AsciiBytes(s: string)
    requires IsAscii(s)
    ensures |Bytes(s)| == |s| && forall i | 0 <= i < |s| :: Bytes(s)[i] == s[i] as int
  {
    if s != [] {
      AsciiBytes(s[1..]);
      assert Bytes(s) == [s[0] as int] + Bytes(s[1..]);
    }
  }

  function ShortHash(value: string): (r: string)
    ensures |r| == 8
    ensures forall c | c in r :: '0' <= c <= '9' || 'a' <= c <= 'f'
  {
    Fnv.Hex(Fnv.Hash(Bytes(value)), 8)
  }

  /** `withHash`; for the bound 63 and an eight-digit hash its second branch is never taken. */
  function WithHash(base: string, hash: string, maxLen: nat): string
    requires maxLen != |hash| + 1
  {
    var suffix := "-" + hash;
    if |base| + |suffix| <= maxLen then base + suffix
    else
      var limit := maxLen - |suffix|;
      if limit < 1 then hash[..maxLen]
      else TrimRight(base[..limit], IsDash) + suffix
  }

  function HashInput(id: Identity): string {
    if TrimSpace(id.uid) == "" then id.namespace + "/" + id.name else id.uid
  }

  datatype ChildNames = ChildNames(
    base: string, configMap: string, deployment: string, serviceAccount: string, role: string, roleBinding: string)

  const MAX_LABEL := 63

  function NamesFor(id: Identity): ChildNames {
    var base := WithHash(DnsLabel("rstream-" + id.name), ShortHash(HashInput(id)), MAX_LABEL);
    ChildNames(base, base + "-config", base, base, base, base)
  }

  /** `RstreamName`: the name registered with the engine. */
  function RstreamName(id: Identity, tunnelName: string): string {
    if TrimSpace(tunnelName) != "" then TrimSpace(tunnelName)
    else DnsLabel(id.namespace + "-" + id.name)
  }

  /** The base name is a label of at most 63 characters that ends in a dash and the hash, truncated or not. */
  lemma BaseNameIsLabel(id: Identity)
    ensures var base := NamesFor(id).base;
            && IsLabel(base)
            && 9 < |base| <= MAX_LABEL
            && base[|base| - 8..] == ShortHash(HashInput(id))
  {
    DnsLabelIsLabel("rstream-" + id.name);
    WithHashIsLabel(DnsLabel("rstream-" + id.name), ShortHash(HashInput(id)));
  }

  /**
   What the names are made of: the label of the tunnel's name under a fixed prefix, cut to 54 characters and freed of
   dashes at the cut if it is longer, a dash, and the hash; the ConfigMap's name has an ending of its own.
   */
  lemma NamesMean(id: Identity)
    ensures var names, whole := NamesFor(id), DnsLabel("rstream-" + id.name);
            var hash := ShortHash(if TrimSpace(id.uid) != "" then id.uid else id.namespace + "/" + id.name);
            && names.configMap == names.base + "-config"
            && names.deployment == names.serviceAccount == names.role == names.roleBinding == names.base
            && (|whole| <= 54 ==> names.base == whole + "-" + hash)
            && (|whole| > 54 ==>
                  exists n | 0 < n <= 54 ::
                    && names.base == whole[..n] + "-" + hash && whole[n - 1] != '-'
                    && forall i | n <= i < 54 :: whole[i] == '-')
  {
    var whole := DnsLabel("rstream-" + id.name);
    var hash := ShortHash(HashInput(id));
    DnsLabelIsLabel("rstream-" + id.name);
    hide DnsLabel, ShortHash;
    if |whole| > 54 {
      var n := SkipBack(whole[..54], IsDash, 54);
      SkipBackStops(whole[..54], IsDash, 54);
      assert whole[0] != '-';
      assert TrimRight(whole[..54], IsDash) == whole[..n];
      assert whole[..n] + ("-" + hash) == whole[..n] + "-" + hash;
    } else {
      assert whole + ("-" + hash) == whole + "-" + hash;
    }
  }

  lemma WithHashIsLabel(base: string, hash: string)
    requires IsLabel(base) && |hash| == 8
    requires forall c | c in hash :: '0' <= c <= '9' || 'a' <= c <= 'f'
    ensures var r := WithHash(base, hash, MAX_LABEL);
            && IsLabel(r)
            && 9 < |r| <= MAX_LABEL
            && r[|r| - 8..] == hash
  {
    var r := WithHash(base, hash, MAX_LABEL);
    if |base| + 9 <= MAX_LABEL {
      HeadAndHashIsLabel(base, hash);
    } else {
      var head := TrimRight(base[..54], IsDash);
      SkipBackStops(base[..54], IsDash, 54);
      SliceOfShape(base, 0, |head|);
      assert head == base[..|head|];
      HeadAndHashIsLabel(head, hash);
    }
  }

  lemma HeadAndHashIsLabel(head: string, hash: string)
    requires IsLabel(head) && |hash| == 8
    requires forall c | c in hash :: '0' <= c <= '9' || 'a' <= c <= 'f'
    ensures IsLabel(head + ("-" + hash))
  {
    var base := head + ("-" + hash);
    assert forall i | 0 <= i < 8 :: base[|head| + 1 + i] == hash[i] && hash[i] in hash;
  }

  /** Equal base names force equal hashes of the hash inputs. */
  lemma EqualNamesEqualHashes(a: Identity, b: Identity)
    requires NamesFor(a).base == NamesFor(b).base
    ensures Fnv.Hash(Bytes(HashInput(a))) == Fnv.Hash(Bytes(HashInput(b)))
  {
    BaseNameIsLabel(a);
    BaseNameIsLabel(b);
    var ha, hb := ShortHash(HashInput(a)), ShortHash(HashInput(b));
    var x, y := Bytes(HashInput(a)), Bytes(HashInput(b));
    Fnv.TailInjective(Fnv.OFFSET_BASIS, Fnv.OFFSET_BASIS, x);
    Fnv.TailInjective(Fnv.OFFSET_BASIS, Fnv.OFFSET_BASIS, y);
    assert Fnv.Pow16(4) == 65536;
    assert Fnv.Pow16(8) == Fnv.WORD;
    Fnv.HexInjective(Fnv.Hash(x), Fnv.Hash(y), 8);
  }

  /** Tunnels whose UIDs differ in exactly one character share no child name. */
  lemma OneCharacterSeparatesChildren(a: Identity, b: Identity, i: nat)
    requires IsAscii(HashInput(a)) && IsAscii(HashInput(b))
    requires |HashInput(a)| == |HashInput(b)| && i < |HashInput(a)| && HashInput(a)[i] != HashInput(b)[i]
    requires forall j | 0 <= j < |HashInput(a)| && j != i :: HashInput(a)[j] == HashInput(b)[j]
    ensures var x, y := NamesFor(a), NamesFor(b);
            && x.configMap != y.configMap && x.deployment != y.deployment && x.serviceAccount != y.serviceAccount
            && x.role != y.role && x.roleBinding != y.roleBinding
  {
    AsciiBytes(HashInput(a));
    AsciiBytes(HashInput(b));
    Fnv.OneByteNeverCollides(Fnv.OFFSET_BASIS, Bytes(HashInput(a)), Bytes(HashInput(b)), i);
    if NamesFor(a).base == NamesFor(b).base {
      EqualNamesEqualHashes(a, b);
      assert false;
    }
    var x, y := NamesFor(a), NamesFor(b);
    ConfigMapName(x.base);
    ConfigMapName(y.base);
  }

  lemma ConfigMapName(base: string)
    ensures (base + "-config")[..|base + "-config"| - 7] == base
  {
  }
}
