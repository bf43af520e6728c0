/**
 * The structure of a generated diagnostic hostname: an optional protocol label, a core label made
 * of '-'-separated tokens, the lower-case country label, and the fixed suffix `tcpping.top`.
 * Both hostname builders (GeneratorPanel and the older home page) produce strings of this shape;
 * `Parse` recovers the structure, which shows the grammar is unambiguous for well-formed tokens.
 */
module Hostnames {
  import opened Wrappers
  import opened Text

  /** The fixed domain every generated hostname ends in. */
  const Suffix := ".tcpping.top"

  datatype Hostname = Hostname(protocol: Option<string>, tokens: seq<string>, country: string)

  function ProtocolText(protocol: Option<string>): string
  {
    if protocol.Some? then protocol.value + "." else ""
  }

  /** The text of a hostname: `[<protocol>.]<t1>-…-<tn>.<country>.tcpping.top`. */
  function Render(h: Hostname): (s: string)
  {
    ProtocolText(h.protocol) + Join(h.tokens, '-') + "." + h.country + Suffix
  }

  /** Labels without dots, and tokens without hyphens, so that the text can be taken apart again. */
  predicate WellFormed(h: Hostname)
  {
    && (h.protocol.Some? ==> '.' !in h.protocol.value)
    && |h.tokens| >= 1
    && (forall i :: 0 <= i < |h.tokens| ==> '.' !in h.tokens[i] && '-' !in h.tokens[i])
    && '.' !in h.country
  }

  /** Takes a hostname apart at its dots and the core label at its hyphens. */
  function Parse(s: string): Option<Hostname>
  {
    var labels := Split(s, '.');
    if |labels| == 5 && labels[3] == "tcpping" && labels[4] == "top" then
      Some(Hostname(Some(labels[0]), Split(labels[1], '-'), labels[2]))
    else if |labels| == 4 && labels[2] == "tcpping" && labels[3] == "top" then
      Some(Hostname(None, Split(labels[0], '-'), labels[1]))
    else None
  }

  /** Joins of two and three tokens. */
  lemma ThreeTokens(a: string, b: string, c: string)
    ensures Join([a, b, c], '-') == a + "-" + b + "-" + c
  {
    assert [a, b, c][1..] == [b, c];
    TwoTokens(b, c);
    assert Join([a, b, c], '-') == a + "-" + (b + "-" + c);
  }

  lemma TwoTokens(a: string, b: string)
    ensures Join([a, b], '-') == a + "-" + b
  {
    assert [a, b][1..] == [b];
  }

  /** A hyphen-join of dot-free tokens has no dot. */
  lemma {:induction false} JoinKeepsOut(parts: seq<string>, sep: char, c: char)
    requires c != sep
    requires forall i :: 0 <= i < |parts| ==> c !in parts[i]
    ensures c !in Join(parts, sep)
    decreases |parts|
  {
    if |parts| > 1 {
      JoinKeepsOut(parts[1..], sep, c);
    }
  }

  /** Two dot-free labels joined by a dot split back into those labels. */
  lemma TwoLabels(a: string, b: string)
    requires '.' !in a && '.' !in b
    ensures Split(a + "." + b, '.') == [a, b]
  {
    SplitWithoutSeparator(a, '.');
    SplitBeforeLast(a, b, '.');
  }

  lemma ThreeLabels(a: string, b: string, c: string)
    requires '.' !in a && '.' !in b && '.' !in c
    ensures Split(a + "." + b + "." + c, '.') == [a, b, c]
  {
    TwoLabels(a, b);
    SplitBeforeLast(a + "." + b, c, '.');
  }

  lemma FourLabels(a: string, b: string, c: string, d: string)
    requires '.' !in a && '.' !in b && '.' !in c && '.' !in d
    ensures Split(a + "." + b + "." + c + "." + d, '.') == [a, b, c, d]
  {
    ThreeLabels(a, b, c);
    SplitBeforeLast(a + "." + b + "." + c, d, '.');
  }

  /** The fixed suffix as its two labels. */
  lemma SuffixParts()
    ensures Suffix == "." + "tcpping" + "." + "top"
    ensures '.' !in "tcpping" && '.' !in "top"
  {
  }

  /** The text after the protocol label splits into the core, the country and the suffix labels. */
  lemma RestLabels(core: string, country: string)
    requires '.' !in core && '.' !in country
    ensures Split(core + "." + country + Suffix, '.') == [core, country, "tcpping", "top"]
  {
    var tcp: string, top: string := "tcpping", "top";
    SuffixParts();
    assert core + "." + country + Suffix == core + "." + country + "." + tcp + "." + top;
    FourLabels(core, country, tcp, top);
  }

  lemma FiveLabels(a: string, b: string, c: string, d: string, e: string)
    requires '.' !in a && '.' !in b && '.' !in c && '.' !in d && '.' !in e
    ensures Split(a + "." + b + "." + c + "." + d + "." + e, '.') == [a, b, c, d, e]
  {
    FourLabels(a, b, c, d);
    SplitBeforeLast(a + "." + b + "." + c + "." + d, e, '.');
  }

  /** With a protocol label in front, that label comes first. */
  lemma PrefixedLabels(p: string, core: string, country: string)
    requires '.' !in p && '.' !in core && '.' !in country
    ensures Split(p + "." + core + "." + country + Suffix, '.') == [p, core, country, "tcpping", "top"]
  {
    var tcp: string, top: string := "tcpping", "top";
    SuffixParts();
    assert p + "." + core + "." + country + Suffix == p + "." + core + "." + country + "." + tcp + "." + top;
    FiveLabels(p, core, country, tcp, top);
  }

  /** Every well-formed hostname is recovered from its text. */
  lemma ParseRender(h: Hostname)
    requires WellFormed(h)
    ensures Parse(Render(h)) == Some(h)
  {
    JoinKeepsOut(h.tokens, '-', '.');
    SplitJoin(h.tokens, '-');
    if h.protocol.Some? {
      ParsePrefixed(h.protocol.value, h.tokens, h.country);
    } else {
      ParseUnprefixed(h.tokens, h.country);
    }
  }

  lemma ParsePrefixed(p: string, tokens: seq<string>, country: string)
    requires '.' !in p && '.' !in country && '.' !in Join(tokens, '-')
    requires Split(Join(tokens, '-'), '-') == tokens
    ensures Parse(Render(Hostname(Some(p), tokens, country))) == Some(Hostname(Some(p), tokens, country))
  {
    var core := Join(tokens, '-');
    PrefixedLabels(p, core, country);
    assert Render(Hostname(Some(p), tokens, country)) == p + "." + core + "." + country + Suffix;
  }

  lemma ParseUnprefixed(tokens: seq<string>, country: string)
    requires '.' !in country && '.' !in Join(tokens, '-')
    requires Split(Join(tokens, '-'), '-') == tokens
    ensures Parse(Render(Hostname(None, tokens, country))) == Some(Hostname(None, tokens, country))
  {
    var core := Join(tokens, '-');
    RestLabels(core, country);
    var text := Render(Hostname(None, tokens, country));
    assert text == core + "." + country + Suffix;
    var labels := Split(text, '.');
    assert labels == [core, country, "tcpping", "top"];
    assert |labels| != 5;
  }
}
