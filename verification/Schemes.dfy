/** The proxy schemes and their fixed spellings. */
module Schemes {
  datatype Scheme = Vless | Vmess | Trojan | Ss | Hysteria2 | Tuic | Mieru | Socks5 | Naive | Snell | AnyTls

  /** Text is UTF-8, so a character here is one byte. */
  type Byte = c: char | c as int < 256 witness 'a'
  type Text = seq<Byte>

  function Name(s: Scheme): Text {
    match s
    case Vless => "vless"
    case Vmess => "vmess"
    case Trojan => "trojan"
    case Ss => "ss"
    case Hysteria2 => "hysteria2"
    case Tuic => "tuic"
    case Mieru => "mieru"
    case Socks5 => "socks5"
    case Naive => "naive"
    case Snell => "snell"
    case AnyTls => "anytls"
  }
}
