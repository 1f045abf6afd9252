/**
 * The hosted-iframe URL (pretix_eth/web3modal/src/core.js, `make3citiesIframe`):
 * a fixed sequence of `&name=value` segments appended, by plain string
 * concatenation, to an opaque base URL whose own parameters live in a hash
 * fragment. Each value is percent-encoded on its own.
 *
 * The partner of the builder is `ParseQuery`, which splits the appended part
 * back into (name, decoded value) pairs; the builder is proved to produce a
 * suffix that parses back to exactly the parameters it was given.
 */
module IframeUrl {
  import opened Wrappers
  import PercentEncoding

  /** The payment-page options `make3citiesIframe` fixes as constants. A string
      option counts as set when it is non-empty (JavaScript truthiness). */
  datatype IframeOptions = IframeOptions(
    requireInIframeOrErrorWith: string,
    iframeParentWindowOrigin: string,
    authenticateSenderAddress: Option<AuthenticateSenderAddress>,
    clickToCloseIframeLabel: string,
    requireNativeTokenTransferProxy: bool)

  datatype AuthenticateSenderAddress = AuthenticateSenderAddress(verifyEip1271Signature: bool)

  /** The option values the script uses; only the parent window's origin
      varies from page to page. */
  function ScriptOptions(windowOrigin: string): IframeOptions {
    IframeOptions(
      "Standalone page detected. Please use the \"Click here to pay\" pop-up in Pretix",
      windowOrigin,
      Some(AuthenticateSenderAddress(true)),
      "Return to Ticket Shop",
      true)
  }

  type Param = (string, string)

  /** Names of the four parameters every URL carries, in order. */
  const MandatoryNames: seq<string> := ["receiverAddress", "amount", "currency", "usdPerEth"]

  const RequireInIframeOrErrorWith := "requireInIframeOrErrorWith"
  const IframeParentWindowOrigin := "iframeParentWindowOrigin"
  const AuthenticateSender := "authenticateSenderAddress"
  const VerifyEip1271Signature := "verifyEip1271Signature"
  const ClickToCloseIframeLabel := "clickToCloseIframeLabel"
  const RequireNativeTokenTransferProxy := "requireNativeTokenTransferProxy"

  /** Names of the optional parameters, in the order the builder appends them. */
  const OptionalNames: seq<string> := [
    RequireInIframeOrErrorWith, IframeParentWindowOrigin, AuthenticateSender,
    VerifyEip1271Signature, ClickToCloseIframeLabel, RequireNativeTokenTransferProxy]

  /** Which optional parameter is set, position by position in `OptionalNames`. */
  function Flags(opts: IframeOptions): (f: seq<bool>)
    ensures |f| == |OptionalNames|
  {
    [ opts.requireInIframeOrErrorWith != "",
      opts.iframeParentWindowOrigin != "",
      opts.authenticateSenderAddress.Some?,
      opts.authenticateSenderAddress.Some? && opts.authenticateSenderAddress.value.verifyEip1271Signature,
      opts.clickToCloseIframeLabel != "",
      opts.requireNativeTokenTransferProxy ]
  }

  /** The value each optional parameter carries when it is set; the three
      switches are sent as the literal `1`. */
  function OptionalValues(opts: IframeOptions): (v: seq<string>)
    ensures |v| == |OptionalNames|
  {
    [ opts.requireInIframeOrErrorWith, opts.iframeParentWindowOrigin, "1", "1",
      opts.clickToCloseIframeLabel, "1" ]
  }

  /** The parameters the URL carries, with their values before encoding: the
      mandatory four, then each optional one whose option is set. */
  function Params(receiverAddress: string, amount: string, currency: string, usdPerEth: string,
                  opts: IframeOptions): seq<Param>
  {
    [("receiverAddress", receiverAddress), ("amount", amount), ("currency", currency), ("usdPerEth", usdPerEth)]
    + Chosen(OptionalNames, Flags(opts), OptionalValues(opts))
  }

  function Optional(present: bool, name: string, value: string): seq<Param> {
    if present then [(name, value)] else []
  }

  /** The (name, value) pairs whose flag is set, in order. */
  function Chosen(names: seq<string>, keep: seq<bool>, values: seq<string>): seq<Param>
    requires |names| == |keep| == |values|
  {
    if names == [] then []
    else Optional(keep[0], names[0], values[0]) + Chosen(names[1..], keep[1..], values[1..])
  }

  function Names(ps: seq<Param>): (ns: seq<string>)
    ensures |ns| == |ps|
    ensures forall i :: 0 <= i < |ps| ==> ns[i] == ps[i].0
  {
    if ps == [] then [] else [ps[0].0] + Names(ps[1..])
  }

  function Segment(p: Param): string {
    "&" + p.0 + "=" + PercentEncoding.Encode(p.1)
  }

  /** The text appended to the base URL for these parameters. */
  function Query(ps: seq<Param>): string {
    if ps == [] then "" else Segment(ps[0]) + Query(ps[1..])
  }

  /** The URL the iframe is opened on. */
  function Url(base: string, ps: seq<Param>): string {
    base + Query(ps)
  }

  function Join(parts: seq<string>): string {
    if parts == [] then "" else Join(parts[..|parts| - 1]) + parts[|parts| - 1]
  }

  /** Index of the first `c` in `s`, or `|s|` when there is none. */
  function IndexOf(s: string, c: char): (k: nat)
    ensures k <= |s|
  {
    if s == [] then 0 else if s[0] == c then 0 else 1 + IndexOf(s[1..], c)
  }

  /** Splits the appended text back into (name, decoded value) pairs: each
      segment runs from an `&` to the next `&`, and its name ends at its first
      `=`. None when the text is not of that shape or a value does not decode. */
  function ParseQuery(q: string): Option<seq<Param>>
    decreases |q|
  {
    if q == [] then Some([])
    else if q[0] != '&' then None
    else
      var j := 1 + IndexOf(q[1..], '&');
      var seg := q[1..j];
      var e := IndexOf(seg, '=');
      if e == |seg| then None
      else
        match PercentEncoding.Decode(seg[e + 1..])
        case None => None
        case Some(value) =>
          match ParseQuery(q[j..])
          case None => None
          case Some(rest) => Some([(seg[..e], value)] + rest)
  }

  predicate PlainName(name: string) {
    '&' !in name && '=' !in name
  }

  lemma {:induction false} IndexOfAfter(a: string, b: string, c: char)
    requires c !in a
    ensures IndexOf(a + b, c) == |a| + IndexOf(b, c)
  {
    if a != [] {
      assert (a + b)[1..] == a[1..] + b;
      IndexOfAfter(a[1..], b, c);
    } else {
      assert a + b == b;
    }
  }

  lemma QueryStartsWithAmpersand(ps: seq<Param>)
    ensures IndexOf(Query(ps), '&') == 0
  {
  }

  /** Where the first segment of `&name=enc` + `rest` ends, and what it holds. */
  lemma SegmentBounds(name: string, enc: string, rest: string)
    requires PlainName(name) && '&' !in enc && IndexOf(rest, '&') == 0
    ensures var q := "&" + name + "=" + enc + rest;
      var j := 2 + |name| + |enc|;
      && |q| > 0 && q[0] == '&'
      && 1 + IndexOf(q[1..], '&') == j
      && q[1..j] == name + "=" + enc
      && q[j..] == rest
  {
    var q := "&" + name + "=" + enc + rest;
    assert q[1..] == name + ("=" + enc + rest);
    IndexOfAfter(name, "=" + enc + rest, '&');
    assert ("=" + enc + rest)[1..] == enc + rest;
    IndexOfAfter(enc, rest, '&');
  }

  /** The name of a segment ends at its first `=`. */
  lemma NameBounds(name: string, enc: string)
    requires PlainName(name)
    ensures var seg := name + "=" + enc;
      IndexOf(seg, '=') == |name| && seg[..|name|] == name && seg[|name| + 1..] == enc
  {
    IndexOfAfter(name, "=" + enc, '=');
    assert name + "=" + enc == name + ("=" + enc);
  }

  /** Parsing a segment followed by more segments yields that segment's
      parameter followed by whatever the rest parses to. */
  lemma ParseSegment(p: Param, rest: string)
    requires PlainName(p.0)
    requires IndexOf(rest, '&') == 0
    ensures ParseQuery(Segment(p) + rest) ==
      match ParseQuery(rest)
      case None => None
      case Some(r) => Some([p] + r)
  {
    var enc := PercentEncoding.Encode(p.1);
    PercentEncoding.NoRawDelimiters(p.1);
    PercentEncoding.DecodeEncode(p.1);
    SegmentBounds(p.0, enc, rest);
    NameBounds(p.0, enc);
  }

  /** The appended text parses back to the parameters it was built from. */
  lemma {:induction false} ParseQueryRoundTrip(ps: seq<Param>)
    requires forall i :: 0 <= i < |ps| ==> PlainName(ps[i].0)
    ensures ParseQuery(Query(ps)) == Some(ps)
  {
    if ps != [] {
      ParseQueryRoundTrip(ps[1..]);
      QueryStartsWithAmpersand(ps[1..]);
      ParseSegment(ps[0], Query(ps[1..]));
      assert [ps[0]] + ps[1..] == ps;
    }
  }

  /** The URL starts with the base, and what follows the base parses back to
      the parameters. */
  lemma UrlRoundTrip(base: string, ps: seq<Param>)
    requires forall i :: 0 <= i < |ps| ==> PlainName(ps[i].0)
    ensures |Url(base, ps)| >= |base| && Url(base, ps)[..|base|] == base
    ensures ParseQuery(Url(base, ps)[|base|..]) == Some(ps)
  {
    assert Url(base, ps)[|base|..] == Query(ps);
    ParseQueryRoundTrip(ps);
  }

  lemma {:induction false} QueryAppend(ps: seq<Param>, qs: seq<Param>)
    ensures Query(ps + qs) == Query(ps) + Query(qs)
  {
    if ps == [] {
      assert ps + qs == qs;
    } else {
      assert (ps + qs)[1..] == ps[1..] + qs;
      QueryAppend(ps[1..], qs);
    }
  }

  /** The builder of the script: pushes each segment onto a list of parts,
      appending an optional segment only when its option is set, and joins the
      parts. The result starts with the base URL and the rest parses back to
      exactly the configured parameters, in order. */
  method ComputeUrl(base: string, receiverAddress: string, amount: string, currency: string,
                    usdPerEth: string, opts: IframeOptions) returns (url: string)
    ensures url == Url(base, Params(receiverAddress, amount, currency, usdPerEth, opts))
    ensures |url| >= |base| && url[..|base|] == base
    ensures ParseQuery(url[|base|..]) == Some(Params(receiverAddress, amount, currency, usdPerEth, opts))
  {
    var parts := [base];
    ghost var ps: seq<Param> := [];
    parts, ps := Push(parts, ps, "receiverAddress", receiverAddress);
    parts, ps := Push(parts, ps, "amount", amount);
    parts, ps := Push(parts, ps, "currency", currency);
    parts, ps := Push(parts, ps, "usdPerEth", usdPerEth);
    ghost var ps0 := ps;
    parts, ps := PushIf(parts, ps, opts.requireInIframeOrErrorWith != "", RequireInIframeOrErrorWith,
                        opts.requireInIframeOrErrorWith);
    ghost var ps1 := ps;
    parts, ps := PushIf(parts, ps, opts.iframeParentWindowOrigin != "", IframeParentWindowOrigin,
                        opts.iframeParentWindowOrigin);
    ghost var ps2 := ps;
    if opts.authenticateSenderAddress.Some? {
      parts, ps := PushFlag(parts, ps, AuthenticateSender);
      parts, ps := PushFlagIf(parts, ps, opts.authenticateSenderAddress.value.verifyEip1271Signature,
                              VerifyEip1271Signature);
    }
    AuthenticationParams(ps2, ps, opts);
    ghost var ps3 := ps;
    parts, ps := PushIf(parts, ps, opts.clickToCloseIframeLabel != "", ClickToCloseIframeLabel,
                        opts.clickToCloseIframeLabel);
    ghost var ps4 := ps;
    parts, ps := PushFlagIf(parts, ps, opts.requireNativeTokenTransferProxy, RequireNativeTokenTransferProxy);
    ghost var all := Params(receiverAddress, amount, currency, usdPerEth, opts);
    AssembledParams(receiverAddress, amount, currency, usdPerEth, opts, ps0, ps1, ps2, ps3, ps4, ps);
    url := Join(parts);
    ParamsArePlain(receiverAddress, amount, currency, usdPerEth, opts);
    UrlRoundTrip(base, all);
  }

  /** What the nested `authenticateSenderAddress` block appends. */
  lemma AuthenticationParams(before: seq<Param>, after: seq<Param>, opts: IframeOptions)
    requires var auth := opts.authenticateSenderAddress;
      if auth.Some? then after == before + [(AuthenticateSender, "1")]
                                   + Optional(auth.value.verifyEip1271Signature, VerifyEip1271Signature, "1")
      else after == before
    ensures var auth := opts.authenticateSenderAddress;
      after == before + Optional(auth.Some?, AuthenticateSender, "1")
                      + Optional(auth.Some? && auth.value.verifyEip1271Signature, VerifyEip1271Signature, "1")
  {
    if opts.authenticateSenderAddress.None? {
      assert before + [] + [] == before;
    }
  }

  /** The parameters pushed one block after another are exactly `Params`. */
  lemma AssembledParams(receiverAddress: string, amount: string, currency: string, usdPerEth: string,
                        opts: IframeOptions, ps0: seq<Param>, ps1: seq<Param>, ps2: seq<Param>,
                        ps3: seq<Param>, ps4: seq<Param>, ps5: seq<Param>)
    requires ps0 == [] + [("receiverAddress", receiverAddress)] + [("amount", amount)]
                       + [("currency", currency)] + [("usdPerEth", usdPerEth)]
    requires ps1 == ps0 + Optional(opts.requireInIframeOrErrorWith != "", RequireInIframeOrErrorWith,
                                   opts.requireInIframeOrErrorWith)
    requires ps2 == ps1 + Optional(opts.iframeParentWindowOrigin != "", IframeParentWindowOrigin,
                                   opts.iframeParentWindowOrigin)
    requires var auth := opts.authenticateSenderAddress;
      ps3 == ps2 + Optional(auth.Some?, AuthenticateSender, "1")
                 + Optional(auth.Some? && auth.value.verifyEip1271Signature, VerifyEip1271Signature, "1")
    requires ps4 == ps3 + Optional(opts.clickToCloseIframeLabel != "", ClickToCloseIframeLabel,
                                   opts.clickToCloseIframeLabel)
    requires ps5 == ps4 + Optional(opts.requireNativeTokenTransferProxy, RequireNativeTokenTransferProxy, "1")
    ensures ps5 == Params(receiverAddress, amount, currency, usdPerEth, opts)
  {
    var o, f, v := OptionalNames, Flags(opts), OptionalValues(opts);
    var c0, c1, c2 := Optional(f[0], o[0], v[0]), Optional(f[1], o[1], v[1]), Optional(f[2], o[2], v[2]);
    var c3, c4, c5 := Optional(f[3], o[3], v[3]), Optional(f[4], o[4], v[4]), Optional(f[5], o[5], v[5]);
    ChosenUnrolled(o, f, v);
    assert ps0 == [("receiverAddress", receiverAddress), ("amount", amount), ("currency", currency), ("usdPerEth", usdPerEth)];
    assert ps5 == ps0 + c0 + c1 + c2 + c3 + c4 + c5;
    AppendAssoc(ps0 + c0 + c1 + c2 + c3, c4, c5);
    AppendAssoc(ps0 + c0 + c1 + c2, c3, c4 + c5);
    AppendAssoc(ps0 + c0 + c1, c2, c3 + (c4 + c5));
    AppendAssoc(ps0 + c0, c1, c2 + (c3 + (c4 + c5)));
    AppendAssoc(ps0, c0, c1 + (c2 + (c3 + (c4 + c5))));
  }

  /** `Chosen` over six positions, written out. */
  lemma ChosenUnrolled(names: seq<string>, keep: seq<bool>, values: seq<string>)
    requires |names| == |keep| == |values| == 6
    ensures Chosen(names, keep, values)
      == Optional(keep[0], names[0], values[0]) + (Optional(keep[1], names[1], values[1])
         + (Optional(keep[2], names[2], values[2]) + (Optional(keep[3], names[3], values[3])
         + (Optional(keep[4], names[4], values[4]) + Optional(keep[5], names[5], values[5])))))
  {
    assert names[0..] == names && keep[0..] == keep && values[0..] == values;
    ChosenAt(names, keep, values, 0);
    ChosenAt(names, keep, values, 1);
    ChosenAt(names, keep, values, 2);
    ChosenLastThree(names, keep, values);
  }

  lemma ChosenLastThree(names: seq<string>, keep: seq<bool>, values: seq<string>)
    requires |names| == |keep| == |values| == 6
    ensures Chosen(names[3..], keep[3..], values[3..])
      == Optional(keep[3], names[3], values[3])
         + (Optional(keep[4], names[4], values[4]) + Optional(keep[5], names[5], values[5]))
  {
    ChosenAt(names, keep, values, 3);
    ChosenAt(names, keep, values, 4);
    ChosenAt(names, keep, values, 5);
    var last := Optional(keep[5], names[5], values[5]);
    assert last + [] == last;
  }

  lemma ChosenAt(names: seq<string>, keep: seq<bool>, values: seq<string>, k: nat)
    requires |names| == |keep| == |values| && k < |names|
    ensures Chosen(names[k..], keep[k..], values[k..])
         == Optional(keep[k], names[k], values[k]) + Chosen(names[k + 1..], keep[k + 1..], values[k + 1..])
  {
    assert names[k..][1..] == names[k + 1..];
    assert keep[k..][1..] == keep[k + 1..];
    assert values[k..][1..] == values[k + 1..];
  }

  /** Pushes the encoded segment for an optional string parameter when its
      option is set (`present` is the option's truthiness). */
  method PushIf(parts: seq<string>, ghost ps: seq<Param>, present: bool, name: string, value: string)
    returns (parts': seq<string>, ghost ps': seq<Param>)
    requires parts != [] && Join(parts) == parts[0] + Query(ps)
    ensures parts' != [] && parts'[0] == parts[0]
    ensures ps' == ps + Optional(present, name, value)
    ensures Join(parts') == parts'[0] + Query(ps')
  {
    parts', ps' := parts, ps;
    if present {
      parts', ps' := Push(parts, ps, name, value);
    }
  }

  /** Pushes the literal segment `&name=1` when the switch is on. */
  method PushFlagIf(parts: seq<string>, ghost ps: seq<Param>, present: bool, name: string)
    returns (parts': seq<string>, ghost ps': seq<Param>)
    requires parts != [] && Join(parts) == parts[0] + Query(ps)
    ensures parts' != [] && parts'[0] == parts[0]
    ensures ps' == ps + Optional(present, name, "1")
    ensures Join(parts') == parts'[0] + Query(ps')
  {
    parts', ps' := parts, ps;
    if present {
      parts', ps' := PushFlag(parts, ps, name);
    }
  }

  /** Pushes the segment `&name=` followed by the percent-encoded value. */
  method Push(parts: seq<string>, ghost ps: seq<Param>, name: string, value: string)
    returns (parts': seq<string>, ghost ps': seq<Param>)
    requires parts != [] && Join(parts) == parts[0] + Query(ps)
    ensures parts' != [] && parts'[0] == parts[0]
    ensures ps' == ps + [(name, value)]
    ensures Join(parts') == parts'[0] + Query(ps')
  {
    parts' := parts + ["&" + name + "=" + PercentEncoding.Encode(value)];
    ps' := ps + [(name, value)];
    Appended(parts, ps, (name, value));
  }

  /** Pushes the literal segment `&name=1`, whose value needs no encoding. */
  method PushFlag(parts: seq<string>, ghost ps: seq<Param>, name: string)
    returns (parts': seq<string>, ghost ps': seq<Param>)
    requires parts != [] && Join(parts) == parts[0] + Query(ps)
    ensures parts' != [] && parts'[0] == parts[0]
    ensures ps' == ps + [(name, "1")]
    ensures Join(parts') == parts'[0] + Query(ps')
  {
    parts' := parts + ["&" + name + "=1"];
    ps' := ps + [(name, "1")];
    EncodeOne();
    Appended(parts, ps, (name, "1"));
  }

  lemma EncodeOne()
    ensures PercentEncoding.Encode("1") == "1"
  {
  }

  /** Appending a segment to the parts appends its parameter to the query. */
  lemma Appended(parts: seq<string>, ps: seq<Param>, p: Param)
    requires parts != [] && Join(parts) == parts[0] + Query(ps)
    ensures (parts + [Segment(p)])[0] == parts[0]
    ensures Join(parts + [Segment(p)]) == parts[0] + Query(ps + [p])
  {
    var parts' := parts + [Segment(p)];
    assert parts'[..|parts'| - 1] == parts;
    QueryAppend(ps, [p]);
    assert Query([p]) == Segment(p) + Query([]);
  }

  /** The elements of `xs` whose flag in `keep` is set, in order. */
  function Selected(xs: seq<string>, keep: seq<bool>): seq<string>
    requires |xs| == |keep|
  {
    if xs == [] then [] else (if keep[0] then [xs[0]] else []) + Selected(xs[1..], keep[1..])
  }

  lemma {:induction false} NamesAppend(ps: seq<Param>, qs: seq<Param>)
    ensures Names(ps + qs) == Names(ps) + Names(qs)
  {
  }

  predicate Distinct(xs: seq<string>) {
    forall a, b :: 0 <= a < b < |xs| ==> xs[a] != xs[b]
  }

  predicate Alphanumeric(c: char) {
    ('a' <= c && c <= 'z') || ('A' <= c && c <= 'Z') || ('0' <= c && c <= '9')
  }

  predicate Word(name: string) {
    forall i :: 0 <= i < |name| ==> Alphanumeric(name[i])
  }

  lemma KnownNamesArePlain()
    ensures forall n :: n in MandatoryNames + OptionalNames ==> PlainName(n)
    ensures Distinct(MandatoryNames + OptionalNames)
  {
    KnownNamesAreWords();
    forall n | n in MandatoryNames + OptionalNames ensures PlainName(n) {
      WordIsPlain(n);
    }
    KnownNamesDiffer();
  }

  lemma KnownNamesAreWords()
    ensures forall n :: n in MandatoryNames + OptionalNames ==> Word(n)
  {
    MandatoryNamesAreWords();
    OptionalNamesAreWords();
    var all := MandatoryNames + OptionalNames;
    assert forall i :: 0 <= i < |all| ==> Word(all[i]) by {
      forall i | 0 <= i < |all| ensures Word(all[i]) {
        if i >= 4 { assert all[i] == OptionalNames[i - 4]; }
      }
    }
  }

  lemma MandatoryNamesAreWords()
    ensures forall i :: 0 <= i < |MandatoryNames| ==> Word(MandatoryNames[i])
  {
    var m := MandatoryNames;
    assert Word(m[0]) && Word(m[1]) && Word(m[2]) && Word(m[3]);
  }

  lemma OptionalNamesAreWords()
    ensures forall i :: 0 <= i < |OptionalNames| ==> Word(OptionalNames[i])
  {
    FirstOptionalNamesAreWords();
    LastOptionalNamesAreWords();
  }

  lemma FirstOptionalNamesAreWords()
    ensures Word(OptionalNames[0]) && Word(OptionalNames[1]) && Word(OptionalNames[2])
  {
    var o := OptionalNames;
    assert Word(o[0]);
    assert Word(o[1]);
  }

  lemma LastOptionalNamesAreWords()
    ensures Word(OptionalNames[3]) && Word(OptionalNames[4]) && Word(OptionalNames[5])
  {
    var o := OptionalNames;
    assert Word(o[3]);
    assert Word(o[4]);
  }

  /** The ten names have ten different lengths. */
  lemma KnownNamesDiffer()
    ensures Distinct(MandatoryNames + OptionalNames)
  {
    var all := MandatoryNames + OptionalNames;
    assert forall a, b :: 0 <= a < b < |all| ==> |all[a]| != |all[b]|;
  }

  lemma WordIsPlain(name: string)
    requires Word(name)
    ensures PlainName(name)
  {
  }

  /** The URL for any option values splits back into its base and its
      parameters. */
  lemma ParamsRoundTrip(base: string, receiverAddress: string, amount: string, currency: string,
                        usdPerEth: string, opts: IframeOptions)
    ensures var url := Url(base, Params(receiverAddress, amount, currency, usdPerEth, opts));
      && |url| >= |base| && url[..|base|] == base
      && ParseQuery(url[|base|..]) == Some(Params(receiverAddress, amount, currency, usdPerEth, opts))
  {
    ParamsArePlain(receiverAddress, amount, currency, usdPerEth, opts);
    UrlRoundTrip(base, Params(receiverAddress, amount, currency, usdPerEth, opts));
  }

  lemma ParamsArePlain(receiverAddress: string, amount: string, currency: string, usdPerEth: string,
                       opts: IframeOptions)
    ensures var ps := Params(receiverAddress, amount, currency, usdPerEth, opts);
      forall i :: 0 <= i < |ps| ==> PlainName(ps[i].0)
  {
    var ps := Params(receiverAddress, amount, currency, usdPerEth, opts);
    ParamNames(receiverAddress, amount, currency, usdPerEth, opts);
    SelectedFrom(OptionalNames, Flags(opts));
    KnownNamesArePlain();
    forall i | 0 <= i < |ps| ensures PlainName(ps[i].0) {
      assert ps[i].0 == Names(ps)[i];
      assert Names(ps)[i] in MandatoryNames + OptionalNames;
    }
  }

  /** The names the URL carries: the four mandatory ones, then the optional
      ones whose option is set, in the fixed order. */
  lemma ParamNames(receiverAddress: string, amount: string, currency: string, usdPerEth: string,
                   opts: IframeOptions)
    ensures Names(Params(receiverAddress, amount, currency, usdPerEth, opts))
         == MandatoryNames + Selected(OptionalNames, Flags(opts))
  {
    var m := [("receiverAddress", receiverAddress), ("amount", amount), ("currency", currency), ("usdPerEth", usdPerEth)];
    var c := Chosen(OptionalNames, Flags(opts), OptionalValues(opts));
    NamesAppend(m, c);
    NamesOfChosen(OptionalNames, Flags(opts), OptionalValues(opts));
    assert Names(m) == MandatoryNames;
  }

  lemma {:induction false} NamesOfChosen(names: seq<string>, keep: seq<bool>, values: seq<string>)
    requires |names| == |keep| == |values|
    ensures Names(Chosen(names, keep, values)) == Selected(names, keep)
  {
    if names != [] {
      NamesOfChosen(names[1..], keep[1..], values[1..]);
      NamesAppend(Optional(keep[0], names[0], values[0]), Chosen(names[1..], keep[1..], values[1..]));
    }
  }

  lemma {:induction false} SelectedFrom(xs: seq<string>, keep: seq<bool>)
    requires |xs| == |keep| && Distinct(xs)
    ensures forall x :: x in Selected(xs, keep) ==> x in xs
    ensures IsOrderedSubsequence(Selected(xs, keep), xs)
  {
    if xs != [] {
      SelectedFrom(xs[1..], keep[1..]);
      var rest := Selected(xs[1..], keep[1..]);
      if keep[0] {
        assert ([xs[0]] + rest)[1..] == rest;
      } else {
        assert [] + rest == rest;
        if rest != [] {
          assert rest[0] in xs[1..];
          assert rest[0] != xs[0];
        }
      }
    }
  }

  lemma {:induction false} SelectedMembership(xs: seq<string>, keep: seq<bool>, i: nat)
    requires |xs| == |keep| && i < |xs| && Distinct(xs)
    ensures xs[i] in Selected(xs, keep) <==> keep[i]
  {
    SelectedFrom(xs[1..], keep[1..]);
    if i > 0 {
      SelectedMembership(xs[1..], keep[1..], i - 1);
      assert xs[i] == xs[1..][i - 1];
    } else {
      assert xs[0] !in xs[1..];
    }
  }

  /** The four mandatory parameters come first and in order; each optional
      parameter appears exactly when its option is set; the optional ones keep
      the fixed order of `OptionalNames`; and `verifyEip1271Signature` never
      appears without `authenticateSenderAddress`. */
  lemma ParamsLayout(receiverAddress: string, amount: string, currency: string, usdPerEth: string,
                     opts: IframeOptions)
    ensures var ns := Names(Params(receiverAddress, amount, currency, usdPerEth, opts));
      && |ns| >= 4
      && ns[..4] == MandatoryNames
      && (forall i :: 0 <= i < |OptionalNames| ==> (OptionalNames[i] in ns <==> Flags(opts)[i]))
      && IsOrderedSubsequence(ns[4..], OptionalNames)
      && ("verifyEip1271Signature" in ns ==> "authenticateSenderAddress" in ns)
  {
    var ns := Names(Params(receiverAddress, amount, currency, usdPerEth, opts));
    var sel := Selected(OptionalNames, Flags(opts));
    ParamNames(receiverAddress, amount, currency, usdPerEth, opts);
    KnownNamesArePlain();
    SelectedFrom(OptionalNames, Flags(opts));
    assert ns[4..] == sel;
    forall i | 0 <= i < |OptionalNames| ensures OptionalNames[i] in ns <==> Flags(opts)[i] {
      SelectedMembership(OptionalNames, Flags(opts), i);
      assert OptionalNames[i] !in MandatoryNames;
    }
    assert OptionalNames[3] == "verifyEip1271Signature" && OptionalNames[2] == "authenticateSenderAddress";
  }

  /** `xs` lists some of the elements of `ys`, in the order they have in `ys`. */
  predicate IsOrderedSubsequence(xs: seq<string>, ys: seq<string>)
    decreases |ys|
  {
    if xs == [] then true
    else if ys == [] then false
    else if xs[0] == ys[0] then IsOrderedSubsequence(xs[1..], ys[1..])
    else IsOrderedSubsequence(xs, ys[1..])
  }
}
