/** When two spellings found in a feed mean the same, told from their bytes alone: letter case,
trailing dots, white space around a toggle, and the keys that count. */
module Spelling {
  import opened Schemes

  /** The same byte, or the two cases of one ASCII letter. */
  predicate Alike(a: Byte, b: Byte) {
    || a == b
    || ('A' <= a <= 'Z' && b as int == a as int + 32)
    || ('A' <= b <= 'Z' && a as int == b as int + 32)
  }

  ghost predicate SpelledLike(s: Text, t: Text) {
    |s| == |t| && forall i :: 0 <= i < |s| ==> Alike(s[i], t[i])
  }

  /** `host` is `n` bytes long without its trailing dots. */
  ghost predicate LongWithoutDots(host: Text, n: int) {
    && 0 <= n <= |host|
    && (n > 0 ==> host[n - 1] != '.')
    && forall i :: n <= i < |host| ==> host[i] == '.'
  }

  /** One DNS name: alike up to letter case and trailing dots. */
  ghost predicate SameHost(a: Text, b: Text) {
    exists n :: LongWithoutDots(a, n) && LongWithoutDots(b, n) && SpelledLike(a[..n], b[..n])
  }

  lemma WithoutDotsIsUnique(host: Text, n: int, m: int)
    requires LongWithoutDots(host, n) && LongWithoutDots(host, m)
    ensures n == m
  {}

  /** The code point a UTF-8 sequence of at most three bytes stands for. */
  function CodePoint(c: Text): int {
    if |c| == 1 && c[0] as int < 0x80 then c[0] as int
    else if |c| == 2 && 0xC2 <= c[0] as int < 0xE0 && 0x80 <= c[1] as int < 0xC0 then
      (c[0] as int - 0xC0) * 0x40 + (c[1] as int - 0x80)
    else if |c| == 3 && 0xE0 <= c[0] as int < 0xF0 && (if c[0] as int == 0xE0 then 0xA0 else 0x80) <= c[1] as int < 0xC0
            && 0x80 <= c[2] as int < 0xC0 then
      (c[0] as int - 0xE0) * 0x1000 + (c[1] as int - 0x80) * 0x40 + (c[2] as int - 0x80)
    else -1
  }

  /** One character with the Unicode property `White_Space`. */
  predicate White(c: Text) {
    var p := CodePoint(c);
    || 0x09 <= p <= 0x0D || p == 0x20 || p == 0x85 || p == 0xA0 || p == 0x1680
    || 0x2000 <= p <= 0x200A || p == 0x2028 || p == 0x2029 || p == 0x202F || p == 0x205F || p == 0x3000
  }

  ghost predicate Blank(s: Text)
    decreases |s|
  {
    s == [] || exists n :: 1 <= n <= |s| && White(s[..n]) && Blank(s[n..])
  }

  ghost predicate OnWord(w: Text) {
    SpelledLike(w, "1") || SpelledLike(w, "true") || SpelledLike(w, "yes") || SpelledLike(w, "on")
  }

  /** A toggle value that switches on: one of four words between white space. */
  ghost predicate TurnsOn(value: Text) {
    exists i, j :: 0 <= i <= j <= |value| && Blank(value[..i]) && OnWord(value[i..j]) && Blank(value[j..])
  }

  /** The four spellings of the switch that turns certificate verification off. */
  ghost predicate InsecureSwitch(key: Text) {
    || SpelledLike(key, "insecure") || SpelledLike(key, "allowinsecure")
    || SpelledLike(key, "skip-cert-verify") || SpelledLike(key, "allow_insecure")
  }

  lemma {:induction false} BlankGrows(s: Text, c: Text)
    requires Blank(s) && White(c)
    ensures Blank(s + c)
    decreases |s|
  {
    hide White;
    if s == [] {
      assert c[..|c|] == c && c[|c|..] == [];
      assert Blank(c[|c|..]);
      assert s + c == c;
    } else {
      var n :| 1 <= n <= |s| && White(s[..n]) && Blank(s[n..]);
      BlankGrows(s[n..], c);
      assert (s + c)[..n] == s[..n] && (s + c)[n..] == s[n..] + c;
    }
  }

  lemma BlankBegins(s: Text, n: nat, i: nat)
    requires 1 <= n <= i <= |s| && White(s[..n]) && Blank(s[n..][..i - n])
    ensures Blank(s[..i])
  {
    assert s[..i][..n] == s[..n] && s[..i][n..] == s[n..][..i - n];
  }

  lemma BlankStartsWhite(s: Text) returns (n: nat)
    requires Blank(s) && s != []
    ensures 1 <= n <= |s| && White(s[..n]) && Blank(s[n..])
  {
    n :| 1 <= n <= |s| && White(s[..n]) && Blank(s[n..]);
  }

  /** White space can be taken off at the back as well. */
  lemma {:induction false} BlankEndsWhite(s: Text) returns (k: nat)
    requires Blank(s) && s != []
    ensures k < |s| && Blank(s[..k]) && White(s[k..])
    decreases |s|
  {
    var n :| 1 <= n <= |s| && White(s[..n]) && Blank(s[n..]);
    if n == |s| {
      assert s[..n] == s && s[0..] == s && s[..0] == [];
      k := 0;
    } else {
      var m := BlankEndsWhite(s[n..]);
      k := n + m;
      assert s[..k][..n] == s[..n] && s[..k][n..] == s[n..][..m] && s[k..] == s[n..][m..];
    }
  }

  lemma WordBounds(w: Text)
    requires OnWord(w)
    ensures w != [] && '0' <= w[0] <= 'z' && '0' <= w[|w| - 1] <= 'z'
  {}

  /** The keys that change how a client connects or authenticates, in alphabetical order; the
      insecure switches apart. */
  predicate CountedKey(key: Text) {
    || key == "aid" || key == "alpn" || key == "authority"
    || key == "congestion_control" || key == "disable_sni" || key == "encryption"
    || key == "flow" || key == "fp" || key == "headertype" || key == "host" || key == "mode" || key == "net"
    || key == "obfs" || key == "obfs-host" || key == "obfs-password"
    || key == "packetencoding" || key == "path" || key == "pbk" || key == "pinsha256" || key == "ports" || key == "publickey"
    || key == "reality-opts" || key == "scy" || key == "security" || key == "servicename" || key == "shortid" || key == "sid"
    || key == "sni" || key == "tls" || key == "type" || key == "udp_relay_mode" || key == "utls" || key == "version"
    || key == "ws-headers" || key == "ws-opts"
  }
}
