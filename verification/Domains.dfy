// How the policy spells hosts (extensions/cookie-bridge/policy.js normalizeDomain,
// suffixes): domains as they are written, and the label sequences Policy works on.
module Domains {
  import opened Text
  import opened Policy

  predicate White(c: char) {
    c in " \t\n\r"
  }

  function TrimLeft(s: string): string {
    if s != "" && White(s[0]) then TrimLeft(s[1..]) else s
  }

  function TrimRight(s: string): string {
    if s != "" && White(s[|s| - 1]) then TrimRight(s[..|s| - 1]) else s
  }

  function DropLastDot(s: string): string {
    if s != "" && s[|s| - 1] == '.' then s[..|s| - 1] else s
  }

  /** Lower case, trimmed, without leading dots or a trailing one. */
  function NormalizeDomain(domain: string): string {
    DropLastDot(StripDots(Lower(TrimRight(TrimLeft(domain)))))
  }

  function HostOf(domain: string): (h: Host)
    ensures h != []
  {
    Split(NormalizeDomain(domain), '.')
  }

  /** A domain has one spelling as a host: sets of written domains are sets of hosts. */
  lemma SpelledOnce(a: string, b: string)
    requires Split(a, '.') == Split(b, '.')
    ensures a == b
  {
    JoinSplit(a, '.');
    JoinSplit(b, '.');
  }

  lemma {:induction false} TrimRightKeepsFirst(c: char, s: string)
    requires !White(c)
    ensures TrimRight([c] + s) == [c] + TrimRight(s)
  {
    if s != "" {
      var t := [c] + s;
      assert t[|t| - 1] == s[|s| - 1] && t[..|t| - 1] == [c] + s[..|s| - 1];
      TrimRightKeepsFirst(c, s[..|s| - 1]);
    } else {
      assert [c] + s == [c] && [c] + TrimRight(s) == [c];
    }
  }

  /** A domain cookie's leading dot does not change its host. */
  lemma LeadingDot(d: string)
    requires d != "" ==> !White(d[0])
    ensures HostOf("." + d) == HostOf(d)
  {
    var t := "." + d;
    assert TrimLeft(t) == t && TrimLeft(d) == d;
    TrimRightKeepsFirst('.', d);
    var l := Lower("." + TrimRight(d));
    assert l[0] == '.' && l[1..] == Lower(TrimRight(d));
  }

  /** The host and each parent, longest first. */
  method Suffixes(host: string) returns (list: seq<string>)
    ensures forall t :: t in list <==> exists s :: HasSuffix(Split(host, '.'), s) && t == Join(s, '.')
    ensures list != [] && list[0] == host
  {
    hide Join, Split;
    var labels := Split(host, '.');
    list := [];
    for i := 0 to |labels|
      invariant |list| == i
      invariant forall j :: 0 <= j < i ==> list[j] == Join(labels[j..], '.')
    {
      list := list + [Join(labels[i..], '.')];
    }
    forall t ensures t in list <==> exists s :: HasSuffix(labels, s) && t == Join(s, '.') {
      if s :| HasSuffix(labels, s) && t == Join(s, '.') { assert list[|labels| - |s|] == t; }
      if t in list {
        var j :| 0 <= j < |list| && list[j] == t;
        assert HasSuffix(labels, labels[j..]);
      }
    }
    JoinSplit(host, '.');
    assert labels[0..] == labels;
  }
}
