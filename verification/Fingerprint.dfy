/** The pre-image of the deduplication fingerprint, and what two proxies with the same
pre-image have in common.

The hash itself is not modelled: everything below is about the bytes fed to it. */
module Fingerprint {
  import opened Prelude
  import opened Schemes
  import opened Escaping
  import opened Spelling

  datatype Param = Param(key: Text, value: Text)
  datatype Entry = Entry(scheme: Scheme, name: Text, host: Text, port: nat, credential: Text, params: seq<Param>)
  datatype Pair = Pair(key: Text, value: Text)

  const TRANSPORT: seq<Text> := [
    "security", "tls", "type", "net", "headertype", "mode", "path", "host", "authority", "alpn", "version"]
  const PINNING: seq<Text> := ["pbk", "publickey", "sid", "shortid", "fp", "utls", "sni", "flow", "pinsha256"]
  const CREDENTIALS: seq<Text> := [
    "encryption", "scy", "obfs", "obfs-host", "obfs-password", "congestion_control", "aid", "packetencoding"]
  const EXTRAS: seq<Text> := [
    "servicename", "ports", "udp_relay_mode", "disable_sni", "ws-headers", "ws-opts", "reality-opts"]

  const INSECURE_ALIASES: seq<Text> := ["insecure", "allowinsecure", "skip-cert-verify", "allow_insecure"]

  /** The keys that change how a client connects or authenticates. */
  predicate IsSecurityParam(key: Text) {
    key in TRANSPORT || key in PINNING || key in CREDENTIALS || key in INSECURE_ALIASES || key in EXTRAS
  }

  const TRUTHY: seq<Text> := ["1", "true", "yes", "on"]

  // ---------------------------------------------------------------- normal forms

  function LowerByte(b: Byte): Byte { if 'A' <= b <= 'Z' then (b as int + 32) as char else b }

  function Lower(s: Text): (r: Text)
    ensures |r| == |s| && forall i :: 0 <= i < |s| ==> r[i] == LowerByte(s[i])
  {
    seq(|s|, i requires 0 <= i < |s| => LowerByte(s[i]))
  }

  function TrimDots(s: Text): Text {
    if s != [] && s[|s| - 1] == '.' then TrimDots(s[..|s| - 1]) else s
  }

  function NormalizeHost(host: Text): Text { TrimDots(Lower(host)) }

  /** Bytes of the white-space character that `s` begins with; 0 when it begins with another. */
  function SpaceAtFront(s: Text): (n: nat)
    ensures n <= |s|
  {
    if |s| >= 1 && (s[0] == ' ' || '\t' <= s[0] <= '\r') then 1
    else if |s| >= 2 && s[0] as int == 0xC2 && (s[1] as int == 0x85 || s[1] as int == 0xA0) then 2
    else if |s| >= 3 && WideSpace(s[0] as int, s[1] as int, s[2] as int) then 3
    else 0
  }

  function SpaceAtBack(s: Text): (n: nat)
    ensures n <= |s|
  {
    if |s| >= 1 && SpaceAtFront(s[|s| - 1..]) == 1 then 1
    else if |s| >= 2 && SpaceAtFront(s[|s| - 2..]) == 2 then 2
    else if |s| >= 3 && SpaceAtFront(s[|s| - 3..]) == 3 then 3
    else 0
  }

  predicate WideSpace(a: int, b: int, c: int) {
    || (a == 0xE1 && b == 0x9A && c == 0x80)
    || (a == 0xE2 && b == 0x80 && (0x80 <= c <= 0x8A || c == 0xA8 || c == 0xA9 || c == 0xAF))
    || (a == 0xE2 && b == 0x81 && c == 0x9F)
    || (a == 0xE3 && b == 0x80 && c == 0x80)
  }

  function Trim(s: Text): Text
    decreases |s|
  {
    if SpaceAtFront(s) > 0 then Trim(s[SpaceAtFront(s)..])
    else if SpaceAtBack(s) > 0 then Trim(s[..|s| - SpaceAtBack(s)])
    else s
  }

  predicate IsTruthyToggle(value: Text) { Lower(Trim(value)) in TRUTHY }

  /** The spelling a lower-cased key is filed under. */
  function CanonicalKey(scheme: Scheme, key: Text): Text {
    if key == "servername" then "sni"
    else if key == "network" && scheme == Vmess then "net"
    else if key == "network" then "type"
    else if key == "ws-path" then "path"
    else if key == "client-fingerprint" then "fp"
    else if key == "grpc-service-name" then "servicename"
    else if key == "fingerprint" then "pinsha256"
    else if key == "cipher" && scheme == Vmess then "scy"
    else if key == "alterid" && scheme == Vmess then "aid"
    else key
  }

  function NormalizeInsecureAlias(key: Text, value: Text): Option<Pair> {
    if key in INSECURE_ALIASES then
      if IsTruthyToggle(value) then Some(Pair("insecure", "1")) else None
    else Some(Pair(key, value))
  }

  /** What one parameter contributes. */
  function Canonical(scheme: Scheme, p: Param): Option<Pair> {
    var key := CanonicalKey(scheme, Lower(p.key));
    if !IsSecurityParam(key) then None else NormalizeInsecureAlias(key, p.value)
  }

  function Pairs(scheme: Scheme, params: seq<Param>): seq<Pair> {
    if params == [] then []
    else
      var pair := Canonical(scheme, params[|params| - 1]);
      Pairs(scheme, params[..|params| - 1]) + if pair.Some? then [pair.value] else []
  }

  // ---------------------------------------------------------------- what the normal forms tell apart

  lemma AlikeBytes(a: Byte, b: Byte)
    ensures LowerByte(a) == LowerByte(b) <==> Alike(a, b)
    ensures LowerByte(a) == '.' <==> a == '.'
  {}

  lemma LowerIsBlindToCase(s: Text, t: Text)
    ensures Lower(s) == Lower(t) <==> SpelledLike(s, t)
  {
    forall a, b { AlikeBytes(a, b); }
    hide LowerByte, Alike;
    if Lower(s) == Lower(t) {
      forall i | 0 <= i < |s| ensures Alike(s[i], t[i]) {
        assert Lower(s)[i] == Lower(t)[i];
      }
    }
  }

  lemma {:induction false} TrimDotsCuts(s: Text) returns (n: nat)
    ensures LongWithoutDots(s, n) && TrimDots(s) == s[..n]
  {
    n := |s|;
    if s != [] && s[|s| - 1] == '.' {
      n := TrimDotsCuts(s[..|s| - 1]);
    }
  }

  /** The normal form of a host: as long as the host without its trailing dots, and byte by byte
      the host's own, but with 32 added to 'A' to 'Z'. */
  lemma NormalForm(host: Text) returns (n: nat)
    ensures LongWithoutDots(host, n) && |NormalizeHost(host)| == n
    ensures forall i :: 0 <= i < n ==>
              NormalizeHost(host)[i] as int == host[i] as int + if 'A' <= host[i] <= 'Z' then 32 else 0
    ensures NormalizeHost(host) == Lower(host[..n])
  {
    n := TrimDotsCuts(Lower(host));
    forall i | 0 <= i < |host| ensures Lower(host)[i] == '.' <==> host[i] == '.' {
      AlikeBytes(host[i], host[i]);
    }
    assert Lower(host[..n]) == Lower(host)[..n];
  }

  /** Two hosts have one normal form if and only if they are one DNS name. */
  lemma HostsAgree(a: Text, b: Text)
    ensures NormalizeHost(a) == NormalizeHost(b) <==> SameHost(a, b)
  {
    var n := NormalForm(a);
    var m := NormalForm(b);
    hide NormalizeHost;
    if n == m {
      LowerIsBlindToCase(a[..n], b[..n]);
    }
    if SameHost(a, b) {
      var k :| LongWithoutDots(a, k) && LongWithoutDots(b, k) && SpelledLike(a[..k], b[..k]);
      WithoutDotsIsUnique(a, n, k);
      WithoutDotsIsUnique(b, m, k);
    }
  }

  /** A lower-case word is met by exactly its spellings. */
  lemma SpellingsOfWord(s: Text, word: Text)
    requires forall i :: 0 <= i < |word| ==> !('A' <= word[i] <= 'Z')
    ensures Lower(s) == word <==> SpelledLike(s, word)
  {
    LowerIsBlindToCase(s, word);
    assert Lower(word) == word;
  }

  /** The byte sequences of white space. */
  lemma WhiteBytes(c: Text)
    requires White(c)
    ensures 1 <= |c| <= 3
    ensures |c| == 1 ==> c[0] == ' ' || '\t' <= c[0] <= '\r'
    ensures |c| == 2 ==> c[0] as int == 0xC2 && (c[1] as int == 0x85 || c[1] as int == 0xA0)
    ensures |c| == 3 ==> WideSpace(c[0] as int, c[1] as int, c[2] as int)
  {}

  lemma WhiteIsSpace(s: Text, n: nat)
    requires 1 <= n <= |s| && White(s[..n])
    ensures SpaceAtFront(s) == n
  {
    var c := s[..n];
    WhiteBytes(c);
    hide White;
    assert c[0] == s[0];
    if n > 1 { assert c[1] == s[1]; }
    if n > 2 { assert c[2] == s[2]; }
  }

  lemma SpaceIsWhite(s: Text)
    requires SpaceAtFront(s) > 0
    ensures White(s[..SpaceAtFront(s)])
  {}

  lemma WhiteBehindIsSpace(s: Text, k: nat)
    requires k < |s| && White(s[k..])
    ensures SpaceAtBack(s) == |s| - k
  {
    var c := s[k..];
    WhiteBytes(c);
    assert c[..|c|] == c && s[|s| - 1..][0] == c[|c| - 1];
    WhiteIsSpace(c, |c|);
    hide White;
    if |c| == 3 {
      assert s[|s| - 2..][0] == c[1];
    }
  }

  lemma SpaceBehindIsWhite(s: Text)
    requires SpaceAtBack(s) > 0
    ensures White(s[|s| - SpaceAtBack(s)..])
  {
    var c := s[|s| - SpaceAtBack(s)..];
    SpaceIsWhite(c);
    assert c[..|c|] == c;
  }

  lemma NoSpaceBeforeWord(s: Text)
    requires s != [] && '0' <= s[0] <= 'z'
    ensures SpaceAtFront(s) == 0
  {}

  lemma NoSpaceEndsLikeWord(s: Text)
    requires s != [] && '0' <= s[|s| - 1] <= 'z'
    ensures SpaceAtFront(s) != |s|
  {}

  lemma NoSpaceAfterWord(s: Text)
    requires s != [] && '0' <= s[|s| - 1] <= 'z'
    ensures SpaceAtBack(s) == 0
  {
    hide SpaceAtFront;
    NoSpaceEndsLikeWord(s[|s| - 1..]);
    if |s| >= 2 { NoSpaceEndsLikeWord(s[|s| - 2..]); }
    if |s| >= 3 { NoSpaceEndsLikeWord(s[|s| - 3..]); }
  }

  lemma TrimOnce(s: Text)
    ensures var n, m := SpaceAtFront(s), SpaceAtBack(s);
      Trim(s) == if n > 0 then Trim(s[n..]) else if m > 0 then Trim(s[..|s| - m]) else s
  {}

  lemma DropThenSlice(s: Text, n: nat, i: nat, j: nat)
    requires n <= i <= j <= |s|
    ensures s[n..][i - n..j - n] == s[i..j] && s[n..][j - n..] == s[j..] && s[n..][..i - n] == s[..i][n..] && s[..i][..n] == s[..n]
  {}

  lemma TakeThenSlice(s: Text, i: nat, j: nat, m: nat)
    requires i <= j <= m <= |s|
    ensures s[..m][i..j] == s[i..j] && s[..m][..i] == s[..i] && s[..m][..j] == s[..j]
    ensures s[..m][j..] == s[j..][..m - j] && s[j..][m - j..] == s[m..]
    ensures s[..m][j..] + s[m..] == s[j..]
  {}

  lemma TrimsAtFront(s: Text, i: nat, j: nat) returns (n: nat)
    requires 0 < i <= j <= |s| && Blank(s[..i])
    ensures 0 < n <= i && Blank(s[n..][..i - n]) && Trim(s) == Trim(s[n..])
    ensures s[n..][i - n..j - n] == s[i..j] && s[n..][j - n..] == s[j..]
  {
    TrimOnce(s);
    hide *;
    n := BlankStartsWhite(s[..i]);
    DropThenSlice(s, n, i, j);
    WhiteIsSpace(s, n);
  }

  lemma TrimBackOnce(s: Text, m: nat)
    requires SpaceAtFront(s) == 0 && m < |s| && SpaceAtBack(s) == |s| - m
    ensures Trim(s) == Trim(s[..m])
  {
    hide SpaceAtFront, SpaceAtBack;
  }

  lemma TakeThenDrop(s: Text, j: nat, m: nat)
    requires j <= m <= |s|
    ensures s[..m][..j] == s[..j] && s[..m][j..] == s[j..][..m - j] && s[j..][m - j..] == s[m..]
  {}

  lemma TrimsAtBack(s: Text, j: nat) returns (m: nat)
    requires 0 < j < |s| && '0' <= s[0] <= 'z' && Blank(s[j..])
    ensures j <= m < |s| && Blank(s[..m][j..]) && s[..m][..j] == s[..j] && Trim(s) == Trim(s[..m])
  {
    hide *;
    NoSpaceBeforeWord(s);
    var k := BlankEndsWhite(s[j..]);
    m := j + k;
    TakeThenDrop(s, j, m);
    WhiteBehindIsSpace(s, m);
    TrimBackOnce(s, m);
  }

  lemma NothingToTrim(s: Text)
    requires OnWord(s)
    ensures Trim(s) == s
  {
    WordBounds(s);
    NoSpaceBeforeWord(s);
    NoSpaceAfterWord(s);
  }

  lemma {:induction false} TrimFindsFirstWord(s: Text, j: nat)
    requires j <= |s| && OnWord(s[..j]) && Blank(s[j..])
    ensures Trim(s) == s[..j]
    decreases |s|
  {
    WordBounds(s[..j]);
    hide *;
    if j < |s| {
      var m := TrimsAtBack(s, j);
      TrimFindsFirstWord(s[..m], j);
    } else {
      Ends(s);
      NothingToTrim(s);
    }
  }

  /** Trimming leaves a word that stands between white space. */
  lemma {:induction false} TrimFindsWord(s: Text, i: nat, j: nat)
    requires i <= j <= |s| && Blank(s[..i]) && OnWord(s[i..j]) && Blank(s[j..])
    ensures Trim(s) == s[i..j]
    decreases |s|
  {
    hide *;
    if i > 0 {
      var n := TrimsAtFront(s, i, j);
      TrimFindsWord(s[n..], i - n, j - n);
    } else {
      assert s[i..j] == s[..j];
      TrimFindsFirstWord(s, j);
    }
  }

  /** Trimming takes off white space only. */
  lemma {:induction false} TrimTakesBlanks(s: Text) returns (i: nat, j: nat)
    ensures i <= j <= |s| && Blank(s[..i]) && Blank(s[j..]) && Trim(s) == s[i..j]
    decreases |s|
  {
    TrimOnce(s);
    hide Trim, SpaceAtFront, SpaceAtBack, White;
    var n, m := SpaceAtFront(s), |s| - SpaceAtBack(s);
    if n > 0 {
      SpaceIsWhite(s);
      i, j := TrimTakesBlanks(s[n..]);
      i, j := i + n, j + n;
      DropThenSlice(s, n, i, j);
      BlankBegins(s, n, i);
    } else if m < |s| {
      SpaceBehindIsWhite(s);
      i, j := TrimTakesBlanks(s[..m]);
      BlankGrows(s[..m][j..], s[m..]);
      TakeThenSlice(s, i, j, m);
    } else {
      i, j := 0, |s|;
      assert s[..0] == [] && s[|s|..] == [];
    }
  }

  lemma OnWords(w: Text)
    ensures Lower(w) in TRUTHY <==> OnWord(w)
  {
    SpellingsOfWord(w, "1");
    SpellingsOfWord(w, "true");
    SpellingsOfWord(w, "yes");
    SpellingsOfWord(w, "on");
    hide SpelledLike, Lower;
    assert TRUTHY == ["1", "true", "yes", "on"];
  }

  /** A toggle is on if and only if it is one of the four words, in any case, between white space. */
  lemma ToggleMeaning(value: Text)
    ensures IsTruthyToggle(value) <==> TurnsOn(value)
  {
    OnWords(Trim(value));
    hide OnWord, Lower, Trim;
    if IsTruthyToggle(value) {
      var i, j := TrimTakesBlanks(value);
      assert TurnsOn(value);
    }
    if TurnsOn(value) {
      var i, j :| 0 <= i <= j <= |value| && Blank(value[..i]) && OnWord(value[i..j]) && Blank(value[j..]);
      TrimFindsWord(value, i, j);
    }
  }

  // ---------------------------------------------------------------- what a parameter says

  /** The Clash spellings and the URI spellings of one field, as the formats have them. */
  predicate SameField(scheme: Scheme, clash: Text, uri: Text) {
    || (clash == "servername" && uri == "sni")
    || (clash == "network" && uri == (if scheme == Vmess then "net" else "type"))
    || (clash == "ws-path" && uri == "path")
    || (clash == "client-fingerprint" && uri == "fp")
    || (clash == "grpc-service-name" && uri == "servicename")
    || (clash == "fingerprint" && uri == "pinsha256")
    || (scheme == Vmess && clash == "cipher" && uri == "scy")
    || (scheme == Vmess && clash == "alterid" && uri == "aid")
  }

  /** `key`, in any letter case, is the field's own name or its Clash name. */
  ghost predicate NamesField(scheme: Scheme, key: Text, field: Text) {
    exists k :: SpelledLike(key, k) && SmallLetters(k)
      && (SameField(scheme, k, field) || (k == field && forall uri :: !SameField(scheme, k, uri)))
  }

  ghost predicate SmallLetters(s: Text) { forall i :: 0 <= i < |s| ==> !('A' <= s[i] <= 'Z') }

  /** What parameter `p` says about the server: a switch that is on says so in one way, whatever
      its spelling; any other parameter says its value under the name of its field, if that counts. */
  ghost predicate Says(scheme: Scheme, p: Param, x: Pair) {
    if InsecureSwitch(p.key) then TurnsOn(p.value) && x == Pair("insecure", "1")
    else CountedKey(x.key) && NamesField(scheme, p.key, x.key) && x.value == p.value
  }

  ghost function TimesSaid(scheme: Scheme, params: seq<Param>, x: Pair): nat {
    if params == [] then 0
    else TimesSaid(scheme, params[..|params| - 1], x) + if Says(scheme, params[|params| - 1], x) then 1 else 0
  }

  lemma SwitchSpellings(key: Text)
    ensures Lower(key) in INSECURE_ALIASES <==> InsecureSwitch(key)
  {
    SpellingsOfWord(key, "insecure");
    SpellingsOfWord(key, "allowinsecure");
    SpellingsOfWord(key, "skip-cert-verify");
    SpellingsOfWord(key, "allow_insecure");
    hide SpelledLike, Lower;
    assert INSECURE_ALIASES == ["insecure", "allowinsecure", "skip-cert-verify", "allow_insecure"];
  }

  lemma FieldOfKey(scheme: Scheme, k: Text)
    ensures forall uri :: SameField(scheme, k, uri) ==> CanonicalKey(scheme, k) == uri
    ensures (forall uri :: !SameField(scheme, k, uri)) ==> CanonicalKey(scheme, k) == k
  {
    if forall uri :: !SameField(scheme, k, uri) {
      assert !SameField(scheme, k, CanonicalKey(scheme, k));
    }
  }

  lemma FieldNamed(scheme: Scheme, key: Text, field: Text)
    ensures NamesField(scheme, key, field) <==> CanonicalKey(scheme, Lower(key)) == field
  {
    var k := Lower(key);
    SpellingsOfWord(key, k);
    FieldOfKey(scheme, k);
    hide CanonicalKey, SpelledLike, SameField;
    if NamesField(scheme, key, field) {
      var j :| SpelledLike(key, j) && SmallLetters(j)
        && (SameField(scheme, j, field) || (j == field && forall uri :: !SameField(scheme, j, uri)));
      SpellingsOfWord(key, j);
    }
    if CanonicalKey(scheme, k) == field {
      assert SmallLetters(k);
      if uri :| SameField(scheme, k, uri) {
        assert SameField(scheme, k, field);
      }
    }
  }

  lemma SwitchesKeepTheirKey(scheme: Scheme, k: Text)
    ensures CanonicalKey(scheme, k) in INSECURE_ALIASES <==> k in INSECURE_ALIASES
  {}

  lemma TransportKeys(key: Text)
    ensures key in TRANSPORT <==>
              || key == "security" || key == "tls" || key == "type" || key == "net" || key == "headertype" || key == "mode"
              || key == "path" || key == "host" || key == "authority" || key == "alpn" || key == "version"
  {
    var t := TRANSPORT;
    assert t[0] == "security" && t[1] == "tls" && t[2] == "type" && t[3] == "net" && t[4] == "headertype" && t[5] == "mode";
    assert t[6] == "path" && t[7] == "host" && t[8] == "authority" && t[9] == "alpn" && t[10] == "version";
  }

  lemma PinningKeys(key: Text)
    ensures key in PINNING <==>
              || key == "pbk" || key == "publickey" || key == "sid" || key == "shortid" || key == "fp" || key == "utls"
              || key == "sni" || key == "flow" || key == "pinsha256"
  {
    var t := PINNING;
    assert t[0] == "pbk" && t[1] == "publickey" && t[2] == "sid" && t[3] == "shortid" && t[4] == "fp" && t[5] == "utls";
    assert t[6] == "sni" && t[7] == "flow" && t[8] == "pinsha256";
  }

  lemma CredentialKeys(key: Text)
    ensures key in CREDENTIALS <==>
              || key == "encryption" || key == "scy" || key == "obfs" || key == "obfs-host" || key == "obfs-password"
              || key == "congestion_control" || key == "aid" || key == "packetencoding"
  {
    var t := CREDENTIALS;
    assert t[0] == "encryption" && t[1] == "scy" && t[2] == "obfs" && t[3] == "obfs-host" && t[4] == "obfs-password";
    assert t[5] == "congestion_control" && t[6] == "aid" && t[7] == "packetencoding";
  }

  lemma ExtraKeys(key: Text)
    ensures key in EXTRAS <==>
              || key == "servicename" || key == "ports" || key == "udp_relay_mode" || key == "disable_sni"
              || key == "ws-headers" || key == "ws-opts" || key == "reality-opts"
  {
    var t := EXTRAS;
    assert t[0] == "servicename" && t[1] == "ports" && t[2] == "udp_relay_mode" && t[3] == "disable_sni";
    assert t[4] == "ws-headers" && t[5] == "ws-opts" && t[6] == "reality-opts";
  }

  /** The five lists hold the counted keys and the insecure switches. */
  lemma KeysThatCount(key: Text)
    ensures IsSecurityParam(key) <==> CountedKey(key) || key in INSECURE_ALIASES
  {
    TransportKeys(key);
    PinningKeys(key);
    CredentialKeys(key);
    ExtraKeys(key);
  }

  /** Normalization keeps exactly what the parameter says. */
  lemma CanonicalMeans(scheme: Scheme, p: Param, x: Pair)
    ensures Canonical(scheme, p) == Some(x) <==> Says(scheme, p, x)
  {
    SwitchSpellings(p.key);
    ToggleMeaning(p.value);
    FieldNamed(scheme, p.key, x.key);
    SwitchesKeepTheirKey(scheme, Lower(p.key));
    KeysThatCount(CanonicalKey(scheme, Lower(p.key)));
    hide CanonicalKey, NamesField, InsecureSwitch, TurnsOn, IsTruthyToggle, IsSecurityParam, CountedKey, Lower;
  }

  lemma {:induction false} PairsAreSaid(scheme: Scheme, params: seq<Param>, x: Pair)
    ensures multiset(Pairs(scheme, params))[x] == TimesSaid(scheme, params, x)
  {
    if params != [] {
      PairsAreSaid(scheme, params[..|params| - 1], x);
      CanonicalMeans(scheme, params[|params| - 1], x);
      hide Canonical, Says;
    }
  }

  // ---------------------------------------------------------------- order

  predicate TextLe(a: Text, b: Text) {
    if a == [] then true
    else if b == [] then false
    else a[0] < b[0] || (a[0] == b[0] && TextLe(a[1..], b[1..]))
  }

  predicate PairLe(p: Pair, q: Pair) {
    if p.key == q.key then TextLe(p.value, q.value) else TextLe(p.key, q.key)
  }

  lemma {:induction false} TextOrder(a: Text, b: Text)
    ensures TextLe(a, b) || TextLe(b, a)
    ensures TextLe(a, b) && TextLe(b, a) ==> a == b
  {
    if a != [] && b != [] && a[0] == b[0] {
      TextOrder(a[1..], b[1..]);
      assert a == [a[0]] + a[1..] && b == [b[0]] + b[1..];
    }
  }

  lemma {:induction false} TextTransitive(a: Text, b: Text, c: Text)
    requires TextLe(a, b) && TextLe(b, c)
    ensures TextLe(a, c)
  {
    if a != [] && a[0] == b[0] == c[0] {
      TextTransitive(a[1..], b[1..], c[1..]);
    }
  }

  lemma PairOrder(p: Pair, q: Pair, r: Pair)
    ensures PairLe(p, q) || PairLe(q, p)
    ensures PairLe(p, q) && PairLe(q, p) ==> p == q
    ensures PairLe(p, q) && PairLe(q, r) ==> PairLe(p, r)
  {
    TextOrder(p.key, q.key);
    TextOrder(p.value, q.value);
    if PairLe(p, q) && PairLe(q, r) {
      TextOrder(q.key, r.key);
      if p.key == q.key == r.key {
        TextTransitive(p.value, q.value, r.value);
      } else {
        TextTransitive(p.key, q.key, r.key);
      }
    }
  }

  ghost predicate Sorted(ps: seq<Pair>) {
    forall i, j :: 0 <= i < j < |ps| ==> PairLe(ps[i], ps[j])
  }

  function Insert(p: Pair, ps: seq<Pair>): seq<Pair> {
    if ps == [] || PairLe(p, ps[0]) then [p] + ps else [ps[0]] + Insert(p, ps[1..])
  }

  function Sort(ps: seq<Pair>): seq<Pair> {
    if ps == [] then [] else Insert(ps[0], Sort(ps[1..]))
  }

  lemma {:induction false} InsertSorts(p: Pair, ps: seq<Pair>)
    requires Sorted(ps)
    ensures Sorted(Insert(p, ps)) && multiset(Insert(p, ps)) == multiset(ps) + multiset{p}
  {
    if ps == [] {
    } else if PairLe(p, ps[0]) {
      forall i | 0 <= i < |ps| ensures PairLe(p, ps[i]) {
        PairOrder(p, ps[0], ps[i]);
      }
    } else {
      PairOrder(p, ps[0], p);
      InsertSorts(p, ps[1..]);
      assert ps == [ps[0]] + ps[1..];
      var rest := Insert(p, ps[1..]);
      forall i | 0 <= i < |rest| ensures PairLe(ps[0], rest[i]) {
        assert rest[i] in multiset(rest);
        assert rest[i] in multiset(ps[1..]) || rest[i] == p;
      }
    }
  }

  lemma {:induction false} SortSorts(ps: seq<Pair>)
    ensures Sorted(Sort(ps)) && multiset(Sort(ps)) == multiset(ps)
  {
    if ps != [] {
      SortSorts(ps[1..]);
      InsertSorts(ps[0], Sort(ps[1..]));
      assert ps == [ps[0]] + ps[1..];
    }
  }

  lemma SortedHeadsAgree(a: seq<Pair>, b: seq<Pair>)
    requires Sorted(a) && Sorted(b) && multiset(a) == multiset(b) && a != [] && b != []
    ensures a[0] == b[0]
  {
    assert a[0] in multiset(b) && b[0] in multiset(a);
    var i :| 0 <= i < |b| && b[i] == a[0];
    var j :| 0 <= j < |a| && a[j] == b[0];
    PairOrder(a[0], b[0], a[0]);
  }

  lemma TailsAgree(x: Pair, a: seq<Pair>, b: seq<Pair>)
    requires multiset([x] + a) == multiset([x] + b)
    ensures multiset(a) == multiset(b)
  {
    assert multiset(a) == multiset([x] + a) - multiset{x};
    assert multiset(b) == multiset([x] + b) - multiset{x};
  }

  lemma SameSize<T>(a: seq<T>, b: seq<T>)
    requires multiset(a) == multiset(b)
    ensures |a| == |b|
  {
    assert |multiset(a)| == |multiset(b)|;
  }

  /** A multiset has one sorted listing, whichever sorting routine produced it. */
  lemma {:induction false} SortedIsUnique(a: seq<Pair>, b: seq<Pair>)
    requires Sorted(a) && Sorted(b) && multiset(a) == multiset(b)
    ensures a == b
  {
    SameSize(a, b);
    if a != [] {
      SortedHeadsAgree(a, b);
      assert a == [a[0]] + a[1..] && b == [b[0]] + b[1..];
      TailsAgree(a[0], a[1..], b[1..]);
      SortedIsUnique(a[1..], b[1..]);
    }
  }

  // ---------------------------------------------------------------- the pre-image

  function Render(p: Pair): Text { Escape(p.key) + "=" + Escape(p.value) }

  function Join(ps: seq<Pair>): Text {
    if ps == [] then []
    else if |ps| == 1 then Render(ps[0])
    else Render(ps[0]) + "&" + Join(ps[1..])
  }

  /** Five fields, the first four ended by a bar. */
  function Fields(scheme: Text, host: Text, port: Text, credential: Text, params: Text): Text {
    scheme + "|" + (host + "|" + (port + "|" + (credential + "|" + params)))
  }

  /** The bytes for already normalized parts. */
  function Encode(scheme: Scheme, host: Text, port: nat, credential: Text, pairs: seq<Pair>): Text {
    Fields(Name(scheme), Escape(host), Decimal(port), Escape(credential), Join(Sort(pairs)))
  }

  function Preimage(e: Entry): Text {
    Encode(e.scheme, NormalizeHost(e.host), e.port, e.credential, Pairs(e.scheme, e.params))
  }

  lemma FieldsAreReadable(s: Text, h: Text, p: Text, c: Text, j: Text, s': Text, h': Text, p': Text, c': Text, j': Text)
    requires '|' !in s && '|' !in h && '|' !in p && '|' !in c
    requires '|' !in s' && '|' !in h' && '|' !in p' && '|' !in c'
    requires Fields(s, h, p, c, j) == Fields(s', h', p', c', j')
    ensures s == s' && h == h' && p == p' && c == c' && j == j'
  {
    SplitAt('|', s, h + "|" + (p + "|" + (c + "|" + j)), s', h' + "|" + (p' + "|" + (c' + "|" + j')));
    SplitAt('|', h, p + "|" + (c + "|" + j), h', p' + "|" + (c' + "|" + j'));
    SplitAt('|', p, c + "|" + j, p', c' + "|" + j');
    SplitAt('|', c, j, c', j');
  }

  lemma RenderIsInjective(p: Pair, q: Pair)
    requires Render(p) == Render(q)
    ensures p == q
  {
    EscapeIsFree(p.key);
    EscapeIsFree(q.key);
    SplitAt('=', Escape(p.key), Escape(p.value), Escape(q.key), Escape(q.value));
    EscapeIsInjective(p.key, q.key);
    EscapeIsInjective(p.value, q.value);
  }

  lemma RenderHasNoAmpersand(p: Pair)
    ensures '&' !in Render(p) && Render(p) != []
  {
    EscapeIsFree(p.key);
    EscapeIsFree(p.value);
  }

  lemma SeveralHaveAmpersand(ps: seq<Pair>)
    requires ps != []
    ensures |ps| == 1 <==> '&' !in Join(ps)
  {
    RenderHasNoAmpersand(ps[0]);
    if |ps| > 1 {
      assert Join(ps)[|Render(ps[0])|] == '&';
    }
  }

  lemma {:induction false} JoinIsInjective(a: seq<Pair>, b: seq<Pair>)
    requires Join(a) == Join(b)
    ensures a == b
  {
    if a != [] { RenderHasNoAmpersand(a[0]); }
    if b != [] { RenderHasNoAmpersand(b[0]); }
    if a != [] && b != [] {
      if |a| > 1 && |b| > 1 {
        SplitAt('&', Render(a[0]), Join(a[1..]), Render(b[0]), Join(b[1..]));
        JoinIsInjective(a[1..], b[1..]);
      } else {
        SeveralHaveAmpersand(a);
        SeveralHaveAmpersand(b);
        assert |a| == 1 && |b| == 1;
      }
      RenderIsInjective(a[0], b[0]);
    }
  }

  lemma NamesAreDistinct(s: Scheme, t: Scheme)
    requires Name(s) == Name(t)
    ensures s == t
  {
    assert Name(s)[0] == Name(t)[0] && Name(s)[1] == Name(t)[1];
  }

  lemma NamesAreFree(s: Scheme)
    ensures '|' !in Name(s)
  {}

  lemma PartsHoldNoBar(scheme: Scheme, host: Text, port: nat, credential: Text)
    ensures '|' !in Name(scheme) && '|' !in Escape(host) && '|' !in Decimal(port) && '|' !in Escape(credential)
  {
    NamesAreFree(scheme);
    EscapeIsFree(host);
    DecimalIsFree(port);
    EscapeIsFree(credential);
  }

  /** Equal bytes mean equal parts, the pairs up to their order. */
  lemma EncodingIsInjective(s: Scheme, h: Text, p: nat, c: Text, ps: seq<Pair>, s': Scheme, h': Text, p': nat, c': Text, ps': seq<Pair>)
    ensures Encode(s, h, p, c, ps) == Encode(s', h', p', c', ps') <==>
              s == s' && h == h' && p == p' && c == c' && multiset(ps) == multiset(ps')
  {
    SortSorts(ps);
    SortSorts(ps');
    hide Sort, Sorted;
    if multiset(ps) == multiset(ps') {
      SameSort(ps, ps');
    }
    if Encode(s, h, p, c, ps) == Encode(s', h', p', c', ps') {
      EncodedPartsAgree(s, h, p, c, ps, s', h', p', c', ps');
      JoinIsInjective(Sort(ps), Sort(ps'));
    }
  }

  lemma SameSort(ps: seq<Pair>, ps': seq<Pair>)
    requires multiset(ps) == multiset(ps')
    ensures Sort(ps) == Sort(ps')
  {
    SortSorts(ps);
    SortSorts(ps');
    SortedIsUnique(Sort(ps), Sort(ps'));
  }

  lemma EncodedPartsAgree(s: Scheme, h: Text, p: nat, c: Text, ps: seq<Pair>, s': Scheme, h': Text, p': nat, c': Text, ps': seq<Pair>)
    requires Encode(s, h, p, c, ps) == Encode(s', h', p', c', ps')
    ensures s == s' && h == h' && p == p' && c == c' && Join(Sort(ps)) == Join(Sort(ps'))
  {
    PartsHoldNoBar(s, h, p, c);
    PartsHoldNoBar(s', h', p', c');
    hide Escape, Decimal, Join, Fields, Sort, Name;
    FieldsAreReadable(Name(s), Escape(h), Decimal(p), Escape(c), Join(Sort(ps)),
                      Name(s'), Escape(h'), Decimal(p'), Escape(c'), Join(Sort(ps')));
    NamesAreDistinct(s, s');
    EscapeIsInjective(h, h');
    DecimalIsInjective(p, p');
    EscapeIsInjective(c, c');
  }

  /** Two proxies agree on everything that identifies a server: the scheme, the DNS name, the port,
      the credential, and how often each thing is said about it. */
  ghost predicate SameServer(a: Entry, b: Entry) {
    && a.scheme == b.scheme
    && SameHost(a.host, b.host)
    && a.port == b.port
    && a.credential == b.credential
    && SaidAlike(a.scheme, a.params, b.scheme, b.params)
  }

  ghost predicate SaidAlike(s: Scheme, a: seq<Param>, t: Scheme, b: seq<Param>) {
    forall x :: TimesSaid(s, a, x) == TimesSaid(t, b, x)
  }

  lemma PreimageOfParts(a: Entry, b: Entry)
    ensures Preimage(a) == Preimage(b) <==>
              && a.scheme == b.scheme && NormalizeHost(a.host) == NormalizeHost(b.host) && a.port == b.port
              && a.credential == b.credential && multiset(Pairs(a.scheme, a.params)) == multiset(Pairs(b.scheme, b.params))
  {
    hide Encode, NormalizeHost, Pairs;
    EncodingIsInjective(a.scheme, NormalizeHost(a.host), a.port, a.credential, Pairs(a.scheme, a.params),
                        b.scheme, NormalizeHost(b.host), b.port, b.credential, Pairs(b.scheme, b.params));
  }

  lemma PairsAgree(s: Scheme, a: seq<Param>, t: Scheme, b: seq<Param>)
    ensures multiset(Pairs(s, a)) == multiset(Pairs(t, b)) <==> SaidAlike(s, a, t, b)
  {
    var m, n := multiset(Pairs(s, a)), multiset(Pairs(t, b));
    hide Pairs, Says;
    forall x: Pair ensures m[x] == TimesSaid(s, a, x) && n[x] == TimesSaid(t, b, x) {
      PairsAreSaid(s, a, x);
      PairsAreSaid(t, b, x);
    }
    if SaidAlike(s, a, t, b) {
      assert forall x: Pair :: m[x] == n[x];
      assert m == n;
    }
  }

  /** The pre-image is injective up to exactly that agreement. */
  lemma PreimageIdentifiesServer(a: Entry, b: Entry)
    ensures Preimage(a) == Preimage(b) <==> SameServer(a, b)
  {
    PreimageOfParts(a, b);
    HostsAgree(a.host, b.host);
    PairsAgree(a.scheme, a.params, b.scheme, b.params);
    hide Preimage, NormalizeHost, SameHost, Pairs, SaidAlike;
  }

  // ---------------------------------------------------------------- consequences

  lemma {:induction false} PairsOfConcat(scheme: Scheme, a: seq<Param>, b: seq<Param>)
    ensures Pairs(scheme, a + b) == Pairs(scheme, a) + Pairs(scheme, b)
  {
    if b == [] {
      assert a + b == a;
    } else {
      assert (a + b)[..|a + b| - 1] == a + b[..|b| - 1];
      PairsOfConcat(scheme, a, b[..|b| - 1]);
    }
  }

  lemma PairsWithout(scheme: Scheme, a: seq<Param>, p: Param, b: seq<Param>)
    ensures multiset(Pairs(scheme, a + [p] + b)) == multiset(Pairs(scheme, a + b)) + multiset(Pairs(scheme, [p]))
  {
    PairsOfConcat(scheme, a + [p], b);
    PairsOfConcat(scheme, a, [p]);
    PairsOfConcat(scheme, a, b);
  }

  lemma HeadOff<T>(a: seq<T>)
    requires a != []
    ensures a == [a[0]] + a[1..] && multiset(a[1..]) == multiset(a) - multiset{a[0]}
  {
    assert a == [a[0]] + a[1..];
  }

  lemma Extract<T>(a: seq<T>, x: T) returns (k: nat)
    requires x in multiset(a)
    ensures k < |a| && a[k] == x && a == a[..k] + [x] + a[k + 1..]
    ensures multiset(a[..k] + a[k + 1..]) == multiset(a) - multiset{x}
  {
    k :| 0 <= k < |a| && a[k] == x;
    assert a == a[..k] + [x] + a[k + 1..];
    assert multiset(a) == multiset(a[..k]) + multiset{x} + multiset(a[k + 1..]);
  }

  /** The order of the parameters does not matter. */
  lemma {:induction false} PairsOfReordered(scheme: Scheme, a: seq<Param>, b: seq<Param>)
    requires multiset(a) == multiset(b)
    ensures multiset(Pairs(scheme, a)) == multiset(Pairs(scheme, b))
    decreases |a|
  {
    SameSize(a, b);
    if a != [] {
      var x := a[0];
      assert x in multiset(a);
      var k := Extract(b, x);
      var rest := b[..k] + b[k + 1..];
      HeadOff(a);
      PairsOfReordered(scheme, a[1..], rest);
      PairsOfConcat(scheme, [x], a[1..]);
      PairsWithout(scheme, b[..k], x, b[k + 1..]);
    }
  }

  /** One server under two advertisements: the display name, the order of the parameters, the
      letter case of the host and its trailing dots do not matter. */
  lemma AdvertisementsCollapse(a: Entry, name: Text, host: Text, params: seq<Param>)
    requires SameHost(host, a.host) && multiset(params) == multiset(a.params)
    ensures Preimage(a.(name := name, host := host, params := params)) == Preimage(a)
  {
    HostsAgree(host, a.host);
    PairsOfReordered(a.scheme, params, a.params);
    PreimageOfParts(a.(name := name, host := host, params := params), a);
  }

  /** One more parameter leaves the pre-image alone exactly when it is cosmetic or an insecure
      toggle that is off. */
  lemma ExtraParamMatters(e: Entry, p: Param)
    ensures Preimage(e.(params := e.params + [p])) == Preimage(e) <==> forall x :: !Says(e.scheme, p, x)
  {
    var e' := e.(params := e.params + [p]);
    assert (e.params + [p])[..|e.params|] == e.params;
    PreimageOfParts(e', e);
    var pair := Canonical(e.scheme, p);
    forall x { CanonicalMeans(e.scheme, p, x); }
    hide Canonical, Says, Preimage;
    if pair.Some? {
      assert multiset(Pairs(e.scheme, e'.params))[pair.value] == multiset(Pairs(e.scheme, e.params))[pair.value] + 1;
      assert Says(e.scheme, p, pair.value);
    }
  }

  /** Every truthy spelling of the insecure toggle contributes the same pair, so spellings can
      be exchanged; but two of them count as two. */
  lemma InsecureSpellings(e: Entry, p: Param, q: Param)
    requires InsecureSwitch(p.key) && InsecureSwitch(q.key)
    requires TurnsOn(p.value) && TurnsOn(q.value)
    ensures Preimage(e.(params := e.params + [p])) == Preimage(e.(params := e.params + [q]))
    ensures Preimage(e.(params := e.params + [p] + [q])) != Preimage(e.(params := e.params + [p]))
  {
    AliasesContribute(e.scheme, p);
    AliasesContribute(e.scheme, q);
    var ep, eq := e.(params := e.params + [p]), e.(params := e.params + [q]);
    assert (e.params + [p])[..|e.params|] == e.params && (e.params + [q])[..|e.params|] == e.params;
    PreimageOfParts(ep, eq);
    ExtraParamMatters(ep, q);
    assert Says(e.scheme, q, INSECURE);
  }

  lemma AliasesContribute(scheme: Scheme, p: Param)
    requires InsecureSwitch(p.key)
    ensures Canonical(scheme, p) == if TurnsOn(p.value) then Some(INSECURE) else None
  {
    CanonicalMeans(scheme, p, INSECURE);
    var said := Canonical(scheme, p);
    if said.Some? {
      CanonicalMeans(scheme, p, said.value);
    }
    hide Canonical, InsecureSwitch, TurnsOn;
  }

  /** What every truthy toggle contributes. */
  const INSECURE: Pair := Pair("insecure", "1")

  /** The parameters that are no toggles, and how many toggles are on. */
  ghost function WithoutToggles(params: seq<Param>): seq<Param> {
    if params == [] then []
    else
      var front := WithoutToggles(params[..|params| - 1]);
      if InsecureSwitch(params[|params| - 1].key) then front else front + [params[|params| - 1]]
  }

  ghost function TogglesOn(params: seq<Param>): nat {
    if params == [] then 0
    else
      var last := params[|params| - 1];
      TogglesOn(params[..|params| - 1]) + if InsecureSwitch(last.key) && TurnsOn(last.value) then 1 else 0
  }

  /** Toggles contribute one pair for each that is on, and the others what they would alone. */
  lemma {:induction false} TogglesApart(scheme: Scheme, params: seq<Param>)
    ensures multiset(Pairs(scheme, params)) ==
            multiset(Pairs(scheme, WithoutToggles(params))) + multiset{}[INSECURE := TogglesOn(params)]
  {
    if params != [] {
      var front, last := params[..|params| - 1], params[|params| - 1];
      TogglesApart(scheme, front);
      if InsecureSwitch(last.key) {
        AliasesContribute(scheme, last);
      } else {
        assert (WithoutToggles(front) + [last])[..|WithoutToggles(front)|] == WithoutToggles(front);
      }
      hide Canonical, InsecureSwitch, TurnsOn;
    }
  }

  /** One flag for all spellings holds exactly as far as this: replacing the toggles of an entry by
      a single one that is on leaves the pre-image alone if and only if exactly one of them is on. */
  lemma OneFlagIffOneIsOn(e: Entry, t: Param)
    requires InsecureSwitch(t.key) && TurnsOn(t.value)
    ensures Preimage(e.(params := WithoutToggles(e.params) + [t])) == Preimage(e) <==> TogglesOn(e.params) == 1
  {
    var e' := e.(params := WithoutToggles(e.params) + [t]);
    AliasesContribute(e.scheme, t);
    OneMorePair(e.(params := WithoutToggles(e.params)), t, INSECURE);
    TogglesApart(e.scheme, e.params);
    PreimageOfParts(e', e);
    hide Canonical, Pairs, Preimage, WithoutToggles, TogglesOn;
    var rest, n := multiset(Pairs(e.scheme, WithoutToggles(e.params))), TogglesOn(e.params);
    assert (rest + multiset{INSECURE})[INSECURE] == rest[INSECURE] + 1;
    assert (rest + multiset{}[INSECURE := n])[INSECURE] == rest[INSECURE] + n;
    assert multiset{}[INSECURE := 1] == multiset{INSECURE};
  }

  lemma FieldsShareTheirKey(scheme: Scheme, clash: Text, uri: Text)
    requires SameField(scheme, clash, uri)
    ensures SmallLetters(clash) && SmallLetters(uri) && CountedKey(uri)
  {
    hide CountedKey;
    assert CountedKey(uri) by { UriNamesCount(scheme, clash, uri); }
  }

  lemma UriNamesCount(scheme: Scheme, clash: Text, uri: Text)
    requires SameField(scheme, clash, uri)
    ensures CountedKey(uri)
  {}

  lemma UriNamesAreFinal(scheme: Scheme, clash: Text, uri: Text, field: Text)
    requires SameField(scheme, clash, uri)
    ensures !SameField(scheme, uri, field)
  {}

  lemma WordsOfAField(scheme: Scheme, clash: Text, uri: Text)
    requires SameField(scheme, clash, uri)
    ensures CanonicalKey(scheme, clash) == uri == CanonicalKey(scheme, uri)
    ensures clash !in INSECURE_ALIASES && uri !in INSECURE_ALIASES
  {
    FieldOfKey(scheme, clash);
    forall field ensures !SameField(scheme, uri, field) {
      UriNamesAreFinal(scheme, clash, uri, field);
    }
    FieldOfKey(scheme, uri);
  }

  lemma SaysField(scheme: Scheme, word: Text, field: Text, key: Text, value: Text)
    requires SpelledLike(key, word) && SmallLetters(word) && CanonicalKey(scheme, word) == field
    requires CountedKey(field) && word !in INSECURE_ALIASES && field !in INSECURE_ALIASES
    ensures Canonical(scheme, Param(key, value)) == Some(Pair(field, value))
  {
    SpellingsOfWord(key, word);
    KeysThatCount(field);
    hide CanonicalKey, CountedKey, IsSecurityParam, Lower;
  }

  /** A node advertised as a Clash document and as a URI is one node: the two names of a field,
      in any letter case, are interchangeable, while its value always matters. */
  lemma ClashAndUriCollapse(e: Entry, clash: Text, uri: Text, key: Text, key': Text, v: Text, w: Text)
    requires SameField(e.scheme, clash, uri) && SpelledLike(key, clash) && SpelledLike(key', uri)
    ensures Preimage(e.(params := e.params + [Param(key, v)])) == Preimage(e.(params := e.params + [Param(key', w)])) <==> v == w
  {
    FieldsShareTheirKey(e.scheme, clash, uri);
    WordsOfAField(e.scheme, clash, uri);
    SaysField(e.scheme, clash, uri, key, v);
    SaysField(e.scheme, uri, uri, key', w);
    var a, b := e.(params := e.params + [Param(key, v)]), e.(params := e.params + [Param(key', w)]);
    var x, y := Pair(uri, v), Pair(uri, w);
    OneMorePair(e, Param(key, v), x);
    OneMorePair(e, Param(key', w), y);
    PreimageOfParts(a, b);
    hide Canonical, Pairs, Preimage, SameField;
    var rest := multiset(Pairs(e.scheme, e.params));
    if v != w {
      assert (rest + multiset{x})[x] == rest[x] + 1 && (rest + multiset{y})[x] == rest[x];
    }
  }

  lemma OneMorePair(e: Entry, p: Param, x: Pair)
    requires Canonical(e.scheme, p) == Some(x)
    ensures multiset(Pairs(e.scheme, e.params + [p])) == multiset(Pairs(e.scheme, e.params)) + multiset{x}
  {
    assert (e.params + [p])[..|e.params|] == e.params;
  }

  /** One DNS name in another spelling, with any number of dots behind it, has the same normal form,
      and the normal form is one of its spellings. */
  lemma HostSpellings(host: Text, spelling: Text, dots: Text)
    requires SpelledLike(spelling, host) && forall i :: 0 <= i < |dots| ==> dots[i] == '.'
    ensures NormalizeHost(spelling + dots) == NormalizeHost(host)
    ensures SameHost(NormalizeHost(host), host) && NormalizeHost(NormalizeHost(host)) == NormalizeHost(host)
  {
    var n := NormalForm(host);
    var normal := NormalizeHost(host);
    hide NormalizeHost;
    assert LongWithoutDots(normal, n) && normal[..n] == normal;
    assert SameHost(normal, host);
    HostsAgree(normal, host);
    assert (spelling + dots)[..n] == spelling[..n];
    forall i | n <= i < |spelling + dots| ensures (spelling + dots)[i] == '.' {}
    assert LongWithoutDots(spelling + dots, n);
    HostsAgree(spelling + dots, host);
  }

  lemma FedInTurn(s: Text, h: Text, p: Text, c: Text, j: Text)
    ensures s + "|" + h + "|" + p + "|" + c + "|" + j == Fields(s, h, p, c, j)
  {}

  /** The hasher is fed field by field. */
  method FeedHasher(e: Entry) returns (fed: Text)
    ensures fed == Preimage(e)
  {
    hide Escape, Decimal, Join, Fields, Sort, Pairs, NormalizeHost, Name;
    fed := Name(e.scheme) + "|";
    var host := EscapeInto(NormalizeHost(e.host));
    fed := fed + host + "|";
    fed := fed + Decimal(e.port) + "|";
    var credential := EscapeInto(e.credential);
    fed := fed + credential + "|";
    var params := CanonicalSecurityParams(e);
    fed := fed + params;
    FedInTurn(Name(e.scheme), host, Decimal(e.port), credential, params);
  }

  lemma NoPairs(scheme: Scheme)
    ensures Pairs(scheme, []) == []
  {}

  lemma PairsNext(scheme: Scheme, params: seq<Param>, i: nat)
    requires i < |params|
    ensures Pairs(scheme, params[..i + 1]) ==
            Pairs(scheme, params[..i]) +
            if Canonical(scheme, params[i]).Some? then [Canonical(scheme, params[i]).value] else []
  {
    assert params[..i + 1][..i] == params[..i];
  }

  method CanonicalSecurityParams(e: Entry) returns (out: Text)
    ensures out == Join(Sort(Pairs(e.scheme, e.params)))
  {
    hide Canonical, Pairs;
    var pairs := [];
    assert Pairs(e.scheme, []) == [] by { NoPairs(e.scheme); }
    Ends(e.params);
    for i := 0 to |e.params|
      invariant pairs == Pairs(e.scheme, e.params[..i])
    {
      PairsNext(e.scheme, e.params, i);
      var pair := Canonical(e.scheme, e.params[i]);
      if pair.Some? {
        pairs := pairs + [pair.value];
      }
    }
    pairs := Sort(pairs);
    out := Join(pairs);
  }
}
