/** The `Exported` template function: the exported spelling of an
    identifier, which respects golint's list of initialisms. */
module Naming {
  import opened Text

  /** golint's initialisms: words that are to be written all in capitals. */
  const Initialisms: seq<string> := [
    "ACL", "API", "ASCII", "CPU", "CSS", "DNS", "EOF", "GUID", "HTML",
    "HTTP", "HTTPS", "ID", "IP", "JSON", "LHS", "QPS", "RAM", "RHS", "RPC",
    "SLA", "SMTP", "SQL", "SSH", "TCP", "TLS", "TTL", "UDP", "UI", "UID",
    "UUID", "URI", "URL", "UTF8", "VM", "XML", "XMPP", "XSRF", "XSS"
  ]

  /** The search of `table`, front to back, for an entry equal to `u`. */
  function FindInitialism(u: string, table: seq<string>): (r: Option<string>)
    ensures r.Some? <==> u in table
    ensures r.Some? ==> r.value == u
    decreases |table|
  {
    if table == [] then None
    else if u == table[0] then Some(table[0])
    else FindInitialism(u, table[1..])
  }

  /** Exported: "" for "", the initialism when the upper-cased name is
      one, and otherwise the name with its first character upper-cased. */
  function Exported(s: string): (r: string)
    ensures |r| == |s|
    ensures s != "" ==> r[0] == UpperChar(s[0])
    ensures ToUpper(s) in Initialisms ==> r == ToUpper(s)
    ensures s != "" && ToUpper(s) !in Initialisms ==> r[1..] == s[1..]
  {
    if s == "" then ""
    else match FindInitialism(ToUpper(s), Initialisms)
      case Some(initialism) => initialism
      case None => ToUpper(s[..1]) + s[1..]
  }

  /** Exporting changes the case of letters and nothing else: the name
      and its exported form have the same capitals. */
  lemma ExportedSameCapitals(s: string)
    ensures ToUpper(Exported(s)) == ToUpper(s)
  {
    if s != "" {
      if ToUpper(s) in Initialisms {
        ToUpperIdempotent(s);
      } else {
        ToUpperIdempotent(s[..1]);
        ToUpperConcat(ToUpper(s[..1]), s[1..]);
        ToUpperConcat(s[..1], s[1..]);
        assert s == s[..1] + s[1..];
      }
    }
  }

  /** Exporting an exported name changes nothing. */
  lemma ExportedIdempotent(s: string)
    ensures Exported(Exported(s)) == Exported(s)
  {
    var r := Exported(s);
    if s != "" {
      ExportedSameCapitals(s);
      assert ToUpper(r) == ToUpper(s);
      if ToUpper(s) in Initialisms {
        ToUpperIdempotent(s);
        assert r == ToUpper(s);
      } else {
        ToUpperIdempotent(s[..1]);
        assert r == ToUpper(s[..1]) + s[1..];
        assert r[..1] == ToUpper(s[..1]);
        assert r == r[..1] + r[1..];
      }
    }
  }
}
