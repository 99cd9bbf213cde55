/** TLS client fingerprints and their match against the table of FIPS clients (pkg/clientdetect/clientdetect.go).
    The digest of the cipher list and the names of cipher suites come from libraries: they are parameters. */
module Fingerprints {
  import opened FleetTypes
  import opened Texts

  datatype Hello = Hello(versions: seq<nat>, suites: seq<nat>, protos: seq<string>)

  // ---- sorting the suites ----

  predicate Sorted(s: seq<nat>) {
    forall i, j :: 0 <= i < j < |s| ==> s[i] <= s[j]
  }

  function InsertSorted(x: nat, s: seq<nat>): seq<nat> {
    if s == [] then [x] else if x <= s[0] then [x] + s else [s[0]] + InsertSorted(x, s[1..])
  }

  lemma {:induction false} InsertSortedKeeps(x: nat, s: seq<nat>)
    ensures multiset(InsertSorted(x, s)) == multiset(s) + multiset{x}
  {
    if s == [] || x <= s[0] {
    } else {
      InsertSortedKeeps(x, s[1..]);
      assert s == [s[0]] + s[1..];
    }
  }

  lemma {:induction false} InsertSortedSorts(x: nat, s: seq<nat>)
    requires Sorted(s)
    ensures Sorted(InsertSorted(x, s))
    ensures forall i :: 0 <= i < |InsertSorted(x, s)| ==> InsertSorted(x, s)[i] >= (if s == [] || x <= s[0] then x else s[0])
  {
    if s == [] || x <= s[0] {
    } else {
      InsertSortedSorts(x, s[1..]);
    }
  }

  function Sort(s: seq<nat>): seq<nat> {
    if s == [] then [] else InsertSorted(s[0], Sort(s[1..]))
  }

  lemma {:induction false} SortSorts(s: seq<nat>)
    ensures Sorted(Sort(s)) && multiset(Sort(s)) == multiset(s)
  {
    if s == [] {
    } else {
      SortSorts(s[1..]);
      InsertSortedSorts(s[0], Sort(s[1..]));
      InsertSortedKeeps(s[0], Sort(s[1..]));
      assert s == [s[0]] + s[1..];
    }
  }

  lemma Least(a: seq<nat>, b: seq<nat>)
    requires Sorted(a) && Sorted(b) && multiset(a) == multiset(b) && a != [] && b != []
    ensures a[0] <= b[0]
  {
    assert b[0] in multiset(a);
  }

  /** However it is done, sorting has one result. */
  lemma {:induction false} SortedUnique(a: seq<nat>, b: seq<nat>)
    requires Sorted(a) && Sorted(b) && multiset(a) == multiset(b)
    ensures a == b
  {
    assert |a| == |multiset(a)| == |multiset(b)| == |b|;
    if a == [] {
    } else {
      Least(a, b);
      Least(b, a);
      assert a == [a[0]] + a[1..] && b == [b[0]] + b[1..];
      assert multiset(a[1..]) == multiset(a) - multiset{a[0]} && multiset(b[1..]) == multiset(b) - multiset{a[0]};
      SortedUnique(a[1..], b[1..]);
    }
  }

  // ---- printing ----

  const HEX := "0123456789abcdef"

  function Hex4(n: nat): string {
    [HEX[n / 4096 % 16], HEX[n / 256 % 16], HEX[n / 16 % 16], HEX[n % 16]]
  }

  predicate HexDigit(c: char) {
    '0' <= c <= '9' || 'a' <= c <= 'f'
  }

  function HexValue(c: char): int {
    if c <= '9' then c as int - '0' as int else c as int - 'a' as int + 10
  }

  /** The verb %04x reads back as its number. */
  lemma {:induction false} Hex4Reads(n: nat)
    requires n < 0x10000
    ensures forall c <- Hex4(n) :: HexDigit(c)
    ensures var s := Hex4(n);
      n == 4096 * HexValue(s[0]) + 256 * HexValue(s[1]) + 16 * HexValue(s[2]) + HexValue(s[3])
  {
    HexDigits();
    assert n / 4096 % 16 == n / 4096;
    Quotients(n);
  }

  lemma Quotients(n: nat)
    requires n < 0x10000
    ensures n == 4096 * (n / 4096) + 256 * (n / 256 % 16) + 16 * (n / 16 % 16) + n % 16
  {
    assert n / 16 / 16 == n / 256 && n / 256 / 16 == n / 4096;
  }

  lemma HexDigits()
    ensures forall d :: 0 <= d < 16 ==> HexDigit(HEX[d]) && HexValue(HEX[d]) == d
  {
  }

  function Hexes(suites: seq<nat>): seq<string> {
    seq(|suites|, i requires 0 <= i < |suites| => Hex4(suites[i]))
  }

  function JoinCommas(parts: seq<string>): string {
    if parts == [] then "" else if |parts| == 1 then parts[0] else parts[0] + "," + JoinCommas(parts[1..])
  }

  function Commas(suites: seq<nat>): string {
    JoinCommas(Hexes(suites))
  }

  predicate Plain(s: string) {
    '_' !in s
  }

  /** The verb %02d. */
  function Padded(n: nat): (r: string)
    ensures Plain(r) && |r| >= 2
    ensures ReadDecimal(r) == n && (|r| > 2 ==> r[0] != '0')
  {
    assert n < 10 ==> ("0" + Decimal(n))[..1] == "0" && ("0" + Decimal(n))[1..] == Decimal(n);
    if n < 10 then "0" + Decimal(n) else Decimal(n)
  }

  /** The highest version offered, which comes first: TLS 1.3 to 1.0 by name, anything else as unknown. */
  function VersionTag(versions: seq<nat>): (r: string)
    ensures Plain(r) && |r| == 2
    ensures r == "13" <==> versions != [] && versions[0] == 0x304
    ensures r == "12" <==> versions != [] && versions[0] == 0x303
    ensures r == "11" <==> versions != [] && versions[0] == 0x302
    ensures r == "10" <==> versions != [] && versions[0] == 0x301
    ensures r in ["13", "12", "11", "10", "00"]
  {
    if versions == [] then "00"
    else if versions[0] == 0x304 then "13"
    else if versions[0] == 0x303 then "12"
    else if versions[0] == 0x302 then "11"
    else if versions[0] == 0x301 then "10"
    else "00"
  }

  /** The first protocol offered, cut to two characters. */
  function AlpnTag(protos: seq<string>): (r: string)
    ensures protos == [] ==> r == "00"
    ensures protos != [] ==> r <= protos[0] && (|r| == 2 || (|r| < 2 && r == protos[0]))
  {
    if protos == [] then "00" else if |protos[0]| > 2 then protos[0][..2] else protos[0]
  }

  function ThreeParts(v: string, cc: string, alpn: string): string {
    v + "_" + cc + "_" + alpn
  }

  function VersionPart(h: Hello): (r: string)
    ensures Plain(r) && |r| == 3
  {
    "t" + VersionTag(h.versions)
  }

  /** The part of a fingerprint that the table of known clients is keyed by. */
  function Prefix(h: Hello): string {
    ThreeParts(VersionPart(h), Padded(|h.suites|), AlpnTag(h.protos))
  }

  function Fingerprint(digest: string -> string, h: Hello): string {
    Prefix(h) + "_" + digest(Commas(Sort(h.suites)))
  }

  /** The order in which a client offers its suites does not show. */
  lemma FingerprintIgnoresOrder(digest: string -> string, h: Hello, suites: seq<nat>)
    requires multiset(suites) == multiset(h.suites)
    ensures Fingerprint(digest, h.(suites := suites)) == Fingerprint(digest, h)
  {
    SortIgnoresOrder(suites, h.suites);
    assert Prefix(h.(suites := suites)) == Prefix(h);
  }

  lemma {:induction false} SortIgnoresOrder(a: seq<nat>, b: seq<nat>)
    requires multiset(a) == multiset(b)
    ensures Sort(a) == Sort(b) && |a| == |b|
  {
    assert |a| == |multiset(a)| == |multiset(b)| == |b|;
    SortSorts(a);
    SortSorts(b);
    SortedUnique(Sort(a), Sort(b));
  }

  // ---- what a fingerprint tells ----

  predicate SixteenBit(suites: seq<nat>) {
    forall i :: 0 <= i < |suites| ==> suites[i] < 0x10000
  }

  lemma CommasShape(suites: seq<nat>)
    ensures suites == [] ==> Commas(suites) == ""
    ensures suites != [] ==>
      && |Commas(suites)| >= 4 && Commas(suites)[..4] == Hex4(suites[0])
      && Commas(suites)[4..] == if |suites| == 1 then "" else "," + Commas(suites[1..])
  {
    if suites != [] {
      assert Hexes(suites)[1..] == Hexes(suites[1..]);
      assert Commas(suites) == Hex4(suites[0]) + if |suites| == 1 then "" else "," + Commas(suites[1..]);
    }
  }

  lemma {:induction false} Hex4Injective(m: nat, n: nat)
    requires m < 0x10000 && n < 0x10000 && Hex4(m) == Hex4(n)
    ensures m == n
  {
    Hex4Reads(m);
    Hex4Reads(n);
  }

  lemma SameAfterComma(x: string, y: string)
    requires "," + x == "," + y
    ensures x == y
  {
    assert ("," + x)[1..] == x && ("," + y)[1..] == y;
  }

  /** The list of suites reads back from its text. */
  lemma {:induction false} CommasInjective(a: seq<nat>, b: seq<nat>)
    requires SixteenBit(a) && SixteenBit(b) && Commas(a) == Commas(b)
    ensures a == b
  {
    CommasShape(a);
    CommasShape(b);
    if a != [] && b != [] {
      Hex4Injective(a[0], b[0]);
      if |a| > 1 && |b| > 1 {
        SameAfterComma(Commas(a[1..]), Commas(b[1..]));
        CommasInjective(a[1..], b[1..]);
        assert a == [a[0]] + a[1..] && b == [b[0]] + b[1..];
      }
    }
  }

  /** The digests have one length and do not collide on these two lists. */
  predicate Separates(digest: string -> string, a: Hello, b: Hello) {
    var x, y := Commas(Sort(a.suites)), Commas(Sort(b.suites));
    |digest(x)| == |digest(y)| && (digest(x) == digest(y) ==> x == y)
  }

  lemma SameTails(a: string, x: string, b: string, y: string)
    requires a + x == b + y && |x| == |y|
    ensures a == b && x == y
  {
    assert |a| == |b|;
    assert (a + x)[..|a|] == a && (b + y)[..|a|] == b && (a + x)[|a|..] == x && (b + y)[|a|..] == y;
  }

  /** Short of a collision of the digest, two clients have the same fingerprint exactly when they offer the same
      suites in whatever order, and agree on the version offered first and the start of the first protocol. */
  lemma FingerprintsAgreeIff(digest: string -> string, a: Hello, b: Hello)
    requires SixteenBit(a.suites) && SixteenBit(b.suites) && Separates(digest, a, b)
    ensures Fingerprint(digest, a) == Fingerprint(digest, b) <==>
      multiset(a.suites) == multiset(b.suites) && VersionTag(a.versions) == VersionTag(b.versions) && AlpnTag(a.protos) == AlpnTag(b.protos)
  {
    if Fingerprint(digest, a) == Fingerprint(digest, b) {
      SameTails(Prefix(a) + "_", digest(Commas(Sort(a.suites))), Prefix(b) + "_", digest(Commas(Sort(b.suites))));
      SameTails(Prefix(a), "_", Prefix(b), "_");
      SortSorts(a.suites);
      SortSorts(b.suites);
      KeepsSixteenBit(a.suites);
      KeepsSixteenBit(b.suites);
      CommasInjective(Sort(a.suites), Sort(b.suites));
      assert |a.suites| == |multiset(a.suites)| == |multiset(b.suites)| == |b.suites|;
      PrefixTells(VersionPart(a), VersionPart(b), Padded(|a.suites|), AlpnTag(a.protos), AlpnTag(b.protos));
    }
    if multiset(a.suites) == multiset(b.suites) {
      SortIgnoresOrder(a.suites, b.suites);
    }
  }

  lemma KeepsSixteenBit(suites: seq<nat>)
    requires SixteenBit(suites)
    ensures SixteenBit(Sort(suites))
  {
    SortSorts(suites);
    forall i | 0 <= i < |Sort(suites)|
      ensures Sort(suites)[i] < 0x10000
    {
      assert Sort(suites)[i] in multiset(Sort(suites)) && Sort(suites)[i] in multiset(suites);
    }
  }

  lemma PrefixTells(v: string, w: string, cc: string, x: string, y: string)
    requires |v| == |w| == 3 && v[0] == w[0] && ThreeParts(v, cc, x) == ThreeParts(w, cc, y)
    ensures v[1..] == w[1..] && x == y
  {
    var s, t := ThreeParts(v, cc, x), ThreeParts(w, cc, y);
    assert s[..3] == v && t[..3] == w;
    assert s[|cc| + 5..] == x && t[|cc| + 5..] == y;
  }

  /** `sorted` is the library's sorted copy of the suites; sorting being unique, it does not matter how it
      was made. */
  method ComputeJA4(hello: Hello, sorted: seq<nat>, digest: string -> string) returns (r: string)
    requires Sorted(sorted) && multiset(sorted) == multiset(hello.suites)
    ensures r == Fingerprint(digest, hello)
  {
    var version := "00";
    if |hello.versions| > 0 {
      if hello.versions[0] == 0x304 {
        version := "13";
      } else if hello.versions[0] == 0x303 {
        version := "12";
      } else if hello.versions[0] == 0x302 {
        version := "11";
      } else if hello.versions[0] == 0x301 {
        version := "10";
      }
    }
    var strs := [];
    for i := 0 to |sorted|
      invariant strs == Hexes(sorted[..i])
    {
      strs := strs + [Hex4(sorted[i])];
    }
    assert sorted[..|sorted|] == sorted;
    var alpn := "00";
    if |hello.protos| > 0 {
      alpn := hello.protos[0];
      if |alpn| > 2 {
        alpn := alpn[..2];
      }
    }
    SortSorts(hello.suites);
    SortedUnique(sorted, Sort(hello.suites));
    r := ThreeParts("t" + version, Padded(|hello.suites|), alpn) + "_" + digest(JoinCommas(strs));
  }

  // ---- matching ----

  const KNOWN: map<string, string> := map[
    "t13_04_h2" := "Windows FIPS mode (Edge/Chrome via Schannel CNG)",
    "t12_04_h2" := "Windows FIPS mode (TLS 1.2 only, Edge/Chrome via Schannel CNG)",
    "t12_06_h2" := "Windows FIPS mode (legacy Edge, AES-GCM + AES-CBC suites)",
    "t13_06_h2" := "Windows FIPS mode (legacy Edge with TLS 1.3, mixed suites)",
    "t13_08_h2" := "RHEL Firefox (NSS FIPS mode, TLS 1.3)",
    "t12_08_h2" := "RHEL Firefox (NSS FIPS mode, TLS 1.2)",
    "t13_06_00" := "RHEL curl/OpenSSL FIPS (no ALPN)",
    "t12_06_00" := "RHEL curl/OpenSSL FIPS (TLS 1.2, no ALPN)",
    "t13_03_h2" := "macOS Safari (restricted profile, FIPS-approved suites only)",
    "t13_09_h2" := "Go client (BoringCrypto FIPS build)",
    "t13_05_h2" := "Cloudflare WARP (FIPS enforcement enabled)"
  ]

  /** Index of the first underscore, or the length. */
  function FirstUnderscore(s: string): (i: nat)
    ensures i <= |s| && Plain(s[..i]) && (i < |s| ==> s[i] == '_')
  {
    if s == "" || s[0] == '_' then 0 else
      var i := 1 + FirstUnderscore(s[1..]);
      assert s[..i] == [s[0]] + s[1..][..i - 1];
      i
  }

  /** strings.SplitN(s, "_", n). */
  function SplitN(s: string, n: nat): seq<string>
    requires n >= 1
    decreases n
  {
    var i := FirstUnderscore(s);
    if n == 1 || i == |s| then [s] else [s[..i]] + SplitN(s[i + 1..], n - 1)
  }

  function MatchKnown(fingerprint: string): Option<string> {
    if fingerprint in KNOWN then Some(KNOWN[fingerprint]) else
      var parts := SplitN(fingerprint, 4);
      if |parts| >= 3 && parts[0] + "_" + parts[1] + "_" + parts[2] in KNOWN
      then Some(KNOWN[parts[0] + "_" + parts[1] + "_" + parts[2]])
      else None
  }

  /** Nine characters, underscores exactly at 3 and 6. */
  predicate Keylike(k: string) {
    |k| == 9 && forall i :: 0 <= i < 9 ==> (k[i] == '_' <==> i == 3 || i == 6)
  }

  lemma KnownAreKeylike(k: string)
    requires k in KNOWN
    ensures Keylike(k)
  {
    assert k in ["t13_04_h2", "t12_04_h2", "t12_06_h2", "t13_06_h2", "t13_08_h2", "t12_08_h2",
                 "t13_06_00", "t12_06_00", "t13_03_h2", "t13_09_h2", "t13_05_h2"];
    assert Keylike("t13_04_h2") && Keylike("t12_04_h2") && Keylike("t12_06_h2") && Keylike("t13_06_h2");
    assert Keylike("t13_08_h2") && Keylike("t12_08_h2") && Keylike("t13_06_00") && Keylike("t12_06_00");
    assert Keylike("t13_03_h2") && Keylike("t13_09_h2") && Keylike("t13_05_h2");
  }

  lemma UnderscoreAfter(a: string, rest: string)
    requires Plain(a)
    ensures FirstUnderscore(a + "_" + rest) == |a|
  {
    var s := a + "_" + rest;
    var i := FirstUnderscore(s);
    assert s[|a|] == '_' && forall k :: 0 <= k < |a| ==> s[k] == a[k] && a[k] in a;
    assert forall k :: 0 <= k < i ==> s[k] in s[..i];
    assert i == |a|;
  }

  lemma SplitHead(a: string, rest: string, n: nat)
    requires Plain(a) && n >= 2
    ensures SplitN(a + "_" + rest, n) == [a] + SplitN(rest, n - 1)
  {
    var s := a + "_" + rest;
    UnderscoreAfter(a, rest);
    assert s[..|a|] == a && s[|a| + 1..] == rest;
  }

  /** Looking up a fingerprint made of an unbroken version and count, any ALPN and any digest. */
  lemma MatchParts(v: string, cc: string, alpn: string, d: string)
    requires |v| == 3 && Plain(v) && Plain(cc) && |cc| >= 2 && |alpn| <= 2
    ensures MatchKnown(ThreeParts(v, cc, alpn) + "_" + d)
         == if ThreeParts(v, cc, alpn) in KNOWN then Some(KNOWN[ThreeParts(v, cc, alpn)]) else None
  {
    var third := (alpn + "_" + d)[..FirstUnderscore(alpn + "_" + d)];
    NotExact(v, cc, alpn, d);
    SplitParts(v, cc, alpn, d);
    ThirdPart(alpn, d);
    if third != alpn {
      NotShort(v, cc, third);
      NotBroken(v, cc, alpn);
    }
  }

  lemma SplitTail(alpn: string, d: string)
    ensures var tail := alpn + "_" + d; SplitN(tail, 2) != [] && SplitN(tail, 2)[0] == tail[..FirstUnderscore(tail)]
  {
    var tail := alpn + "_" + d;
    assert tail[|alpn|] == '_';
    assert FirstUnderscore(tail) < |tail| by {
      assert tail[|alpn|] in tail && tail[..|tail|] == tail;
    }
  }

  lemma PartsRegroup(v: string, cc: string, alpn: string, d: string)
    ensures ThreeParts(v, cc, alpn) + "_" + d == v + "_" + (cc + "_" + (alpn + "_" + d))
  {
  }

  lemma SplitParts(v: string, cc: string, alpn: string, d: string)
    requires Plain(v) && Plain(cc)
    ensures var tail := alpn + "_" + d;
      var parts := SplitN(ThreeParts(v, cc, alpn) + "_" + d, 4);
      |parts| >= 3 && parts[0] == v && parts[1] == cc && parts[2] == tail[..FirstUnderscore(tail)]
  {
    var tail := alpn + "_" + d;
    PartsRegroup(v, cc, alpn, d);
    SplitHead(v, cc + "_" + tail, 4);
    SplitHead(cc, tail, 3);
    SplitTail(alpn, d);
  }

  /** Splitting recovers an ALPN without underscores, and cuts any other one short. */
  lemma ThirdPart(alpn: string, d: string)
    ensures var tail := alpn + "_" + d; var third := tail[..FirstUnderscore(tail)];
      if Plain(alpn) then third == alpn else |third| < |alpn|
  {
    var tail := alpn + "_" + d;
    if Plain(alpn) {
      UnderscoreAfter(alpn, d);
    } else {
      var j :| 0 <= j < |alpn| && alpn[j] == '_';
      var i := FirstUnderscore(tail);
      assert tail[j] == '_' && forall k :: 0 <= k < i ==> tail[k] in tail[..i];
      assert i <= j;
    }
  }

  /** A fingerprint matches exactly when its prefix is in the table, with the prefix's description; the exact
      lookup never succeeds, and no ALPN value, with underscores or not, can disturb the prefix lookup. */
  lemma MatchIsPrefixLookup(digest: string -> string, h: Hello)
    ensures MatchKnown(Fingerprint(digest, h)) == if Prefix(h) in KNOWN then Some(KNOWN[Prefix(h)]) else None
  {
    MatchParts(VersionPart(h), Padded(|h.suites|), AlpnTag(h.protos), digest(Commas(Sort(h.suites))));
  }

  lemma NotExact(v: string, cc: string, alpn: string, d: string)
    requires |v| == 3 && Plain(v) && Plain(cc) && |cc| >= 2
    ensures ThreeParts(v, cc, alpn) + "_" + d !in KNOWN
  {
    var s := ThreeParts(v, cc, alpn) + "_" + d;
    assert s[4 + |cc|] == '_' && s[5 + |cc| + |alpn|] == '_' && s[3] == '_';
    if s in KNOWN {
      KnownAreKeylike(s);
    }
  }

  lemma NotShort(v: string, cc: string, alpn: string)
    requires |v| == 3 && Plain(v) && Plain(cc) && |cc| >= 2 && |alpn| < 2
    ensures ThreeParts(v, cc, alpn) !in KNOWN
  {
    var s := ThreeParts(v, cc, alpn);
    assert s[3] == '_' && s[4 + |cc|] == '_';
    if s in KNOWN {
      KnownAreKeylike(s);
    }
  }

  lemma NotBroken(v: string, cc: string, alpn: string)
    requires |v| == 3 && Plain(v) && Plain(cc) && |cc| >= 2 && !Plain(alpn)
    ensures ThreeParts(v, cc, alpn) !in KNOWN
  {
    var s := ThreeParts(v, cc, alpn);
    var j :| 0 <= j < |alpn| && alpn[j] == '_';
    assert s[3] == '_' && s[4 + |cc|] == '_' && s[5 + |cc| + j] == '_';
    if s in KNOWN {
      KnownAreKeylike(s);
    }
  }

  // ---- the FIPS verdict ----

  /** `name` is the library's name of a suite, in upper case. */
  predicate IsChaCha(name: string) { Contains(name, "CHACHA20") }
  predicate IsBanned(name: string) { Contains(name, "RC4") || Contains(name, "3DES") || Contains(name, "DES_CBC") }
  predicate IsAesGcm(name: string) { Contains(name, "AES") && Contains(name, "GCM") }

  ghost predicate Offers(suites: seq<nat>, name: nat -> string, has: string -> bool) {
    exists s <- suites :: has(name(s))
  }

  datatype Verdict = BannedCipher | Consistent | ChaChaOffered | NoAesGcm

  /** Capable means: AES-GCM, and neither ChaCha20 nor a banned cipher. */
  method AnalyzeFIPSCapability(suites: seq<nat>, name: nat -> string) returns (capable: bool, verdict: Verdict)
    ensures capable <==>
      Offers(suites, name, IsAesGcm) && !Offers(suites, name, IsChaCha) && !Offers(suites, name, IsBanned)
    ensures capable <==>
      && (exists s <- suites :: Contains(name(s), "AES") && Contains(name(s), "GCM"))
      && forall s <- suites :: !Contains(name(s), "CHACHA20") && !Contains(name(s), "RC4")
                               && !Contains(name(s), "3DES") && !Contains(name(s), "DES_CBC")
    ensures capable <==> verdict == Consistent
    ensures verdict == BannedCipher <==> Offers(suites, name, IsBanned)
    ensures verdict == ChaChaOffered <==> Offers(suites, name, IsChaCha) && !Offers(suites, name, IsBanned)
  {
    var hasChaCha, hasBanned, hasAesGcm := false, false, false;
    for i := 0 to |suites|
      invariant hasChaCha <==> Offers(suites[..i], name, IsChaCha)
      invariant hasBanned <==> Offers(suites[..i], name, IsBanned)
      invariant hasAesGcm <==> Offers(suites[..i], name, IsAesGcm)
    {
      var upper := name(suites[i]);
      assert suites[..i + 1] == suites[..i] + [suites[i]];
      if Contains(upper, "CHACHA20") {
        hasChaCha := true;
      }
      if Contains(upper, "RC4") || Contains(upper, "3DES") || Contains(upper, "DES_CBC") {
        hasBanned := true;
      }
      if Contains(upper, "AES") && Contains(upper, "GCM") {
        hasAesGcm := true;
      }
    }
    assert suites[..|suites|] == suites;
    if hasBanned {
      return false, BannedCipher;
    }
    if !hasChaCha && hasAesGcm {
      return true, Consistent;
    }
    if hasChaCha {
      return false, ChaChaOffered;
    }
    capable, verdict := false, NoAesGcm;
  }

  lemma OffersIgnoresOrder(a: seq<nat>, b: seq<nat>, name: nat -> string, has: string -> bool)
    requires multiset(a) == multiset(b)
    ensures Offers(a, name, has) == Offers(b, name, has)
  {
    assert forall s :: s in a <==> s in multiset(a);
    assert forall s :: s in b <==> s in multiset(b);
  }

  // ---- the connection log ----

  /** Keeps the newest `maxLog` records. */
  class Inspector<T> {
    const maxLog: nat
    var clients: seq<T>
    ghost var all: seq<T>

    ghost predicate Valid()
      reads this
    {
      && maxLog > 0
      && |clients| == (if |all| < maxLog then |all| else maxLog)
      && clients == all[|all| - |clients|..]
    }

    constructor (maxLog: int)
      ensures Valid() && all == [] && this.maxLog == if maxLog <= 0 then 1000 else maxLog
    {
      this.maxLog := if maxLog <= 0 then 1000 else maxLog;
      clients, all := [], [];
    }

    method Record(info: T)
      requires Valid()
      modifies this
      ensures Valid() && all == old(all) + [info]
    {
      clients := clients + [info];
      all := all + [info];
      if |clients| > maxLog {
        clients := clients[|clients| - maxLog..];
      }
    }

    /** The last `n` of everything recorded, as far as it is retained; non-positive asks for all of that. */
    method RecentClients(n: int) returns (r: seq<T>)
      requires Valid()
      ensures var kept := if |all| < maxLog then |all| else maxLog;
        r == all[|all| - (if n <= 0 || n > kept then kept else n)..]
    {
      var count := n;
      if n <= 0 || n > |clients| {
        count := |clients|;
      }
      r := clients[|clients| - count..];
    }
  }
}
