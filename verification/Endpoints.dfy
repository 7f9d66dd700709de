/** Redacted endpoint labels of pkg/utils/endpoint.go. */
module Endpoints {
  import opened Decimal

  const INVALID_ENDPOINT := "invalid-endpoint"

  /** url.Parse: it fails, or yields a scheme and a host. */
  datatype ParsedUrl = ParseError | Url(scheme: string, host: string)

  /** The authority of a URL ends at '/', '?' or '#' (section 3.2 of RFC 3986), so no parsed scheme or
      host holds a '#'. */
  ghost predicate ParserOk(parse: string -> ParsedUrl)
  {
    forall raw :: parse(raw).Url? ==> '#' !in parse(raw).scheme && '#' !in parse(raw).host
  }

  /** strings.Contains. */
  predicate Contains(s: string, sub: string)
  {
    sub <= s || (s != [] && Contains(s[1..], sub))
  }

  /** sub stands in s at some position. */
  ghost predicate Occurs(s: string, sub: string)
  {
    exists i :: 0 <= i <= |s| && sub <= s[i..]
  }

  lemma {:induction false} ContainsExactly(s: string, sub: string)
    ensures Contains(s, sub) <==> Occurs(s, sub)
  {
    if s == [] {
      assert s[0..] == s;
    } else {
      ContainsExactly(s[1..], sub);
      assert s[0..] == s;
      if Occurs(s[1..], sub) {
        var i :| 0 <= i <= |s[1..]| && sub <= s[1..][i..];
        assert s[1..][i..] == s[i + 1..];
      }
      if Occurs(s, sub) {
        var i :| 0 <= i <= |s| && sub <= s[i..];
        assert i > 0 ==> s[1..][i - 1..] == s[i..];
      }
    }
  }

  /** s up to the first '/', '?' or '#'. */
  function BeforeDelimiter(s: string): (r: string)
    ensures r <= s
    ensures '/' !in r && '?' !in r && '#' !in r
    ensures |r| < |s| ==> s[|r|] in "/?#"
  {
    if s == [] || s[0] in "/?#" then [] else [s[0]] + BeforeDelimiter(s[1..])
  }

  /** s after its last '@'. */
  function AfterLastAt(s: string): (r: string)
    ensures '@' !in r
    ensures |r| <= |s| && r == s[|s| - |r|..]
    ensures |r| < |s| ==> s[|s| - |r| - 1] == '@'
  {
    if s == [] || s[|s| - 1] == '@' then [] else AfterLastAt(s[..|s| - 1]) + [s[|s| - 1]]
  }

  function RedactEndpoint(parse: string -> ParsedUrl, raw: string): string
  {
    if !Contains(raw, "://") then AfterLastAt(BeforeDelimiter(raw))
    else match parse(raw)
         case ParseError => INVALID_ENDPOINT
         case Url(scheme, host) => if scheme == "" || host == "" then INVALID_ENDPOINT else scheme + "://" + host
  }

  lemma AfterLastAtKeeps(s: string, c: char)
    requires c !in s
    ensures c !in AfterLastAt(s)
  {
    var r := AfterLastAt(s);
    assert forall k :: 0 <= k < |r| ==> r[k] == s[|s| - |r| + k];
  }

  /** Redacted forms never hold a '#'; hand-stripped ones hold no path, query, fragment or userinfo delimiter. */
  lemma RedactedPlain(parse: string -> ParsedUrl, raw: string)
    requires ParserOk(parse)
    ensures '#' !in RedactEndpoint(parse, raw)
    ensures !Occurs(raw, "://") ==> forall c :: c in "/?#@" ==> c !in RedactEndpoint(parse, raw)
  {
    ContainsExactly(raw, "://");
    hide Occurs, Contains, BeforeDelimiter, AfterLastAt;
    var host := BeforeDelimiter(raw);
    AfterLastAtKeeps(host, '/');
    AfterLastAtKeeps(host, '?');
    AfterLastAtKeeps(host, '#');
  }

  predicate Delimited(tail: string)
  {
    tail == [] || tail[0] in "/?#"
  }

  lemma BeforeDelimiterOf(a: string, tail: string)
    requires '/' !in a && '?' !in a && '#' !in a && Delimited(tail)
    ensures BeforeDelimiter(a + tail) == a
  {
    hide BeforeDelimiter;
    var s, r := a + tail, BeforeDelimiter(a + tail);
    assert forall k :: 0 <= k < |a| ==> s[k] == a[k] && a[k] in a;
    assert |tail| > 0 ==> s[|a|] == tail[0];
    assert forall k :: 0 <= k < |r| ==> r[k] == s[k] && r[k] in r;
    assert |r| == |a|;
    assert a == s[..|a|] && r == s[..|r|];
  }

  lemma {:induction false} AfterLastAtIs(s: string, n: nat)
    requires n <= |s| && '@' !in s[n..] && (n > 0 ==> s[n - 1] == '@')
    ensures AfterLastAt(s) == s[n..]
  {
    var k := |s| - 1;
    if n == |s| {
    } else {
      assert s[n..] == s[..k][n..] + [s[k]];
      AfterLastAtIs(s[..k], n);
    }
  }

  /** An endpoint without a scheme keeps its host and port and loses everything else, whatever the
      userinfo and whatever follows the authority. */
  lemma KeepsHostOnly(parse: string -> ParsedUrl, user: string, host: string, tail: string)
    requires forall c :: c in "/?#" ==> c !in user && c !in host
    requires '@' !in host && Delimited(tail)
    ensures !Occurs(host + tail, "://") ==> RedactEndpoint(parse, host + tail) == host
    ensures !Occurs(user + ['@'] + host + tail, "://")
            ==> RedactEndpoint(parse, user + ['@'] + host + tail) == host
  {
    ContainsExactly(host + tail, "://");
    ContainsExactly(user + ['@'] + host + tail, "://");
    hide Occurs, Contains, BeforeDelimiter, AfterLastAt;
    assert '/' in "/?#" && '?' in "/?#" && '#' in "/?#";
    BeforeDelimiterOf(host, tail);
    BeforeDelimiterOf(user + ['@'] + host, tail);
    var full := user + ['@'] + host;
    assert full[|user| + 1..] == host && full[|user|] == '@';
    AfterLastAtIs(full, |user| + 1);
    AfterLastAtIs(host, 0);
  }

  lemma SeparatorOccurs(scheme: string, rest: string)
    ensures Occurs(scheme + "://" + rest, "://")
  {
    assert (scheme + "://" + rest)[|scheme|..] == "://" + rest;
  }

  /** An endpoint with a scheme keeps its scheme, host and port and loses everything else: for any parser that
      finds that scheme and host in it, whatever the userinfo and whatever follows the authority. */
  lemma KeepsOriginOnly(parse: string -> ParsedUrl, scheme: string, user: string, host: string, tail: string)
    requires scheme != "" && host != ""
    ensures parse(scheme + "://" + host + tail) == Url(scheme, host) ==>
              RedactEndpoint(parse, scheme + "://" + host + tail) == scheme + "://" + host
    ensures parse(scheme + "://" + (user + "@" + host + tail)) == Url(scheme, host) ==>
              RedactEndpoint(parse, scheme + "://" + (user + "@" + host + tail)) == scheme + "://" + host
  {
    hide Contains, Occurs;
    SeparatorOccurs(scheme, host + tail);
    SeparatorOccurs(scheme, user + "@" + host + tail);
    assert scheme + "://" + host + tail == scheme + "://" + (host + tail);
    ContainsExactly(scheme + "://" + (host + tail), "://");
    ContainsExactly(scheme + "://" + (user + "@" + host + tail), "://");
  }

  /** An endpoint with "://" in it is never echoed as it is: unless the parser finds a scheme and a host, the
      result is a fixed text, and if it does, those two are all that is left. */
  lemma NeverEchoed(parse: string -> ParsedUrl, raw: string)
    requires Occurs(raw, "://")
    ensures parse(raw) == ParseError || parse(raw).scheme == "" || parse(raw).host == "" ==>
              RedactEndpoint(parse, raw) == "invalid-endpoint"
    ensures parse(raw).Url? && parse(raw).scheme != "" && parse(raw).host != "" ==>
              RedactEndpoint(parse, raw) == parse(raw).scheme + "://" + parse(raw).host
  {
    ContainsExactly(raw, "://");
    hide Contains, Occurs;
  }

  /** The form at position i also stands at an earlier position. */
  predicate Repeats(forms: seq<string>, i: nat)
    requires i < |forms|
  {
    forms[i] in forms[..i]
  }

  function Suffixed(form: string, i: nat): (s: string)
    ensures '#' in s
  {
    var s := form + ['#'] + Dec(i);
    assert s[|form|] == '#';
    s
  }

  /** The label of position i: its form, with "#i" when that form occurred before. */
  function Label(forms: seq<string>, i: nat): string
    requires i < |forms|
  {
    if Repeats(forms, i) then Suffixed(forms[i], i) else forms[i]
  }

  predicate Plain(forms: seq<string>)
  {
    forall i :: 0 <= i < |forms| ==> '#' !in forms[i]
  }

  lemma SuffixedInjective(r: string, i: nat, q: string, j: nat)
    requires '#' !in r && '#' !in q && Suffixed(r, i) == Suffixed(q, j)
    ensures r == q && i == j
  {
    SplitUnique(r, Dec(i), q, Dec(j), '#');
    DecInjective(i, j);
  }

  /** Labels tell their positions apart, for every list of plain forms. */
  lemma LabelsDistinct(forms: seq<string>, i: nat, j: nat)
    requires Plain(forms) && i < |forms| && j < |forms| && Label(forms, i) == Label(forms, j)
    ensures i == j
  {
    hide Suffixed;
    assert forall a, b :: 0 <= a < b < |forms| && forms[a] == forms[b] ==> forms[..b][a] == forms[b];
    assert Repeats(forms, i) <==> '#' in Label(forms, i);
    assert Repeats(forms, j) <==> '#' in Label(forms, j);
    if Repeats(forms, i) {
      SuffixedInjective(forms[i], i, forms[j], j);
    }
  }

  /** The first position of a form keeps it unsuffixed. */
  lemma {:induction false} FirstOf(forms: seq<string>, i: nat) returns (j: nat)
    requires i < |forms| && Repeats(forms, i)
    ensures j < i && forms[j] == forms[i] && !Repeats(forms, j)
  {
    var k :| 0 <= k < i && forms[..i][k] == forms[i];
    if Repeats(forms, k) {
      j := FirstOf(forms, k);
    } else {
      j := k;
    }
  }

  /** Looking a form up among the labels given out so far is looking it up among the forms: the seen set
      also holds suffixed labels, but no plain form equals one of them. */
  lemma SeenMeansRepeats(forms: seq<string>, i: nat, labels: seq<string>)
    requires Plain(forms) && i < |forms| && |labels| == i
    requires forall k :: 0 <= k < i ==> labels[k] == Label(forms, k)
    ensures forms[i] in labels <==> Repeats(forms, i)
  {
    hide Suffixed;
    if forms[i] in labels {
      var k :| 0 <= k < i && labels[k] == forms[i];
      assert forms[..i][k] == forms[k];
    }
    if Repeats(forms, i) {
      var j := FirstOf(forms, i);
      assert labels[j] == forms[i];
    }
  }

  /** The redacted forms of a list of endpoints, position by position. */
  function Forms(parse: string -> ParsedUrl, raws: seq<string>): (forms: seq<string>)
    ensures |forms| == |raws|
    ensures forall i :: 0 <= i < |raws| ==> forms[i] == RedactEndpoint(parse, raws[i])
  {
    seq(|raws|, i requires 0 <= i < |raws| => RedactEndpoint(parse, raws[i]))
  }

  lemma FormsPlain(parse: string -> ParsedUrl, raws: seq<string>)
    requires ParserOk(parse)
    ensures Plain(Forms(parse, raws))
  {
    hide RedactEndpoint;
    forall i | 0 <= i < |raws| ensures '#' !in Forms(parse, raws)[i] {
      RedactedPlain(parse, raws[i]);
    }
  }

  lemma LabelOf(forms: seq<string>, i: nat)
    requires i < |forms|
    ensures Label(forms, i) == if Repeats(forms, i) then forms[i] + "#" + Dec(i) else forms[i]
  {
  }

  /** RedactEndpoints: one label a position, all different. */
  method RedactEndpoints(parse: string -> ParsedUrl, raws: seq<string>) returns (labels: seq<string>)
    requires ParserOk(parse)
    ensures |labels| == |raws|
    ensures forall i :: 0 <= i < |raws| ==>
              labels[i] == if RedactEndpoint(parse, raws[i]) in Forms(parse, raws)[..i]
                           then RedactEndpoint(parse, raws[i]) + "#" + Dec(i) else RedactEndpoint(parse, raws[i])
    ensures forall i, j :: 0 <= i < j < |labels| ==> labels[i] != labels[j]
  {
    hide RedactEndpoint, Dec, Label;
    ghost var forms := Forms(parse, raws);
    FormsPlain(parse, raws);
    labels := [];
    var seen: set<string> := {};
    for i := 0 to |raws|
      invariant |labels| == i
      invariant forall k :: 0 <= k < i ==> labels[k] == Label(forms, k)
      invariant forall l :: l in seen <==> l in labels
    {
      var r := RedactEndpoint(parse, raws[i]);
      SeenMeansRepeats(forms, i, labels);
      LabelOf(forms, i);
      if r in seen {
        r := r + "#" + Dec(i);
      }
      seen := seen + {r};
      labels := labels + [r];
    }
    forall i | 0 <= i < |raws|
      ensures labels[i] == if forms[i] in forms[..i] then forms[i] + "#" + Dec(i) else forms[i]
    {
      LabelOf(forms, i);
    }
    forall i, j | 0 <= i < j < |labels|
      ensures labels[i] != labels[j]
    {
      if labels[i] == labels[j] {
        LabelsDistinct(forms, i, j);
      }
    }
  }
}
