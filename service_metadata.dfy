/**
 * The generator of per-service region metadata classes. From the partitions
 * model it emits a class holding the service's endpoint prefix, a table of
 * overridden endpoint hostnames, the list of the service's regions and a table
 * of signing-region overrides, together with the lookups `endpointFor` and
 * `signingRegion` over those tables.
 */
module ServiceMetadata {
  import opened Wrappers
  import opened Poet
  import opened JavaStrings

  // ---------------------------------------------------------------------------
  // The partitions model. Java maps are association lists in iteration order.

  datatype CredentialScope = CredentialScope(region: Option<string>)

  datatype Endpoint = Endpoint(hostname: Option<string>, credentialScope: Option<CredentialScope>)

  /** A service of a partition: its endpoints, keyed by region id. */
  datatype Service = Service(endpoints: seq<(string, Endpoint)>)

  /** A partition: its services, keyed by service name. */
  datatype Partition = Partition(services: seq<(string, Service)>)

  datatype Partitions = Partitions(partitions: seq<Partition>)

  /** The generator's final fields. */
  datatype Generator = Generator(
    partitions: Partitions,
    service: string,
    basePackage: string,
    regionBasePackage: string)

  /** `containsKey` and `get` on an association list: the first entry with the key. */
  function Lookup<V>(entries: seq<(string, V)>, key: string): (r: Option<V>)
    ensures r.Some? <==> exists i :: 0 <= i < |entries| && entries[i].0 == key
    ensures r.Some? ==> exists i :: 0 <= i < |entries| && entries[i] == (key, r.value)
  {
    if entries == [] then None
    else if entries[0].0 == key then Some(entries[0].1)
    else Lookup(entries[1..], key)
  }

  // ---------------------------------------------------------------------------
  // className

  const MetadataSuffix := "ServiceMetadata"

  /** The service name split into words: dots become dashes, then split on dashes. */
  function NameParts(service: string): seq<string>
  {
    Split(Replace(service, '.', '-'), '-')
  }

  /** `Collectors.joining()` over the capitalized parts. */
  function CapitalizeAll(parts: seq<string>, capitalize: string -> string): string
  {
    if parts == [] then "" else capitalize(parts[0]) + CapitalizeAll(parts[1..], capitalize)
  }

  /** The generated class: in the base package, named after the service's capitalized words. */
  function ClassNameOf(g: Generator, capitalize: string -> string): (c: ClassName)
    ensures c.packageName == g.basePackage
    ensures |c.simpleName| >= |MetadataSuffix|
    ensures c.simpleName[|c.simpleName| - |MetadataSuffix|..] == MetadataSuffix
  {
    ClassName(g.basePackage, CapitalizeAll(NameParts(g.service), capitalize) + MetadataSuffix)
  }

  /**
   * A service name without dots or dashes is the class name's only word;
   * otherwise the last word is never empty, since `split` drops trailing empty
   * words. The words hold neither dots nor dashes, and joined with dashes they
   * give the service name with its dots replaced by dashes, up to the trailing
   * dashes that `split` drops.
   */
  lemma NamePartsOfService(service: string)
    ensures var sanitized := Replace(service, '.', '-');
            ('-' !in sanitized ==> NameParts(service) == [sanitized])
            && ('-' in sanitized ==> NameParts(service) == [] || NameParts(service)[|NameParts(service)| - 1] != "")
    ensures forall p :: p in NameParts(service) ==> '-' !in p && '.' !in p
    ensures var sanitized := Replace(service, '.', '-');
            var joined := Join(NameParts(service), '-');
            '.' !in sanitized && joined <= sanitized
            && forall i :: |joined| <= i < |sanitized| ==> sanitized[i] == '-'
  {
    var sanitized := Replace(service, '.', '-');
    SplitParts(sanitized, '-');
    assert '.' !in sanitized by {
      forall i | 0 <= i < |sanitized| ensures sanitized[i] != '.' { }
    }
  }

  // ---------------------------------------------------------------------------
  // getServiceData

  /** The lists `f` gives for the elements of `xs`, concatenated in order. */
  function ConcatMap<T, U>(xs: seq<T>, f: T -> seq<U>): seq<U>
  {
    if xs == [] then [] else ConcatMap(xs[..|xs| - 1], f) + f(xs[|xs| - 1])
  }

  lemma {:induction false} ConcatMapMember<T, U>(xs: seq<T>, f: T -> seq<U>, u: U)
    ensures u in ConcatMap(xs, f) <==> exists i :: 0 <= i < |xs| && u in f(xs[i])
  {
    if xs != [] {
      var init := xs[..|xs| - 1];
      ConcatMapMember(init, f, u);
      if u in ConcatMap(xs, f) {
        if u in ConcatMap(init, f) {
          var i :| 0 <= i < |init| && u in f(init[i]);
          assert xs[i] == init[i];
        } else {
          assert u in f(xs[|xs| - 1]);
        }
      }
      if exists i :: 0 <= i < |xs| && u in f(xs[i]) {
        var i :| 0 <= i < |xs| && u in f(xs[i]);
        if i < |init| {
          assert init[i] == xs[i];
        }
      }
    }
  }

  lemma {:induction false} ConcatMapAppend<T, U>(xs: seq<T>, ys: seq<T>, f: T -> seq<U>)
    ensures ConcatMap(xs + ys, f) == ConcatMap(xs, f) + ConcatMap(ys, f)
  {
    if ys == [] {
      assert xs + ys == xs;
    } else {
      var init := ys[..|ys| - 1];
      assert (xs + ys)[..|xs + ys| - 1] == xs + init;
      assert (xs + ys)[|xs + ys| - 1] == ys[|ys| - 1];
      ConcatMapAppend(xs, init, f);
    }
  }

  /** The services of one partition whose name equals the service ignoring case, in order. */
  function MatchingServices(entries: seq<(string, Service)>, service: string): seq<Service>
  {
    if entries == [] then []
    else
      var e := entries[|entries| - 1];
      MatchingServices(entries[..|entries| - 1], service)
      + (if EqualsIgnoreCase(e.0, service) then [e.1] else [])
  }

  /** The matching services of every partition, in partition order. */
  function ServiceData(ps: seq<Partition>, service: string): seq<Service>
  {
    ConcatMap(ps, (p: Partition) => MatchingServices(p.services, service))
  }

  method GetServiceData(partitions: Partitions, service: string) returns (serviceData: seq<Service>)
    ensures serviceData == ServiceData(partitions.partitions, service)
  {
    var ps := partitions.partitions;
    serviceData := [];
    var i := 0;
    while i < |ps|
      invariant 0 <= i <= |ps|
      invariant serviceData == ServiceData(ps[..i], service)
    {
      var entries := ps[i].services;
      var j := 0;
      while j < |entries|
        invariant 0 <= j <= |entries|
        invariant serviceData == ServiceData(ps[..i], service) + MatchingServices(entries[..j], service)
      {
        if EqualsIgnoreCase(entries[j].0, service) {
          serviceData := serviceData + [entries[j].1];
        }
        assert entries[..j + 1][..j] == entries[..j];
        j := j + 1;
      }
      assert entries[..j] == entries;
      assert ps[..i + 1][..i] == ps[..i];
      i := i + 1;
    }
    assert ps[..i] == ps;
  }

  lemma {:induction false} MatchingServicesMember(entries: seq<(string, Service)>, service: string, s: Service)
    ensures s in MatchingServices(entries, service)
            <==> exists j :: 0 <= j < |entries| && entries[j].1 == s && EqualsIgnoreCase(entries[j].0, service)
  {
    if entries != [] {
      var init := entries[..|entries| - 1];
      MatchingServicesMember(init, service, s);
      if s in MatchingServices(init, service) {
        var j :| 0 <= j < |init| && init[j].1 == s && EqualsIgnoreCase(init[j].0, service);
        assert entries[j] == init[j];
      }
      if exists j :: 0 <= j < |entries| && entries[j].1 == s && EqualsIgnoreCase(entries[j].0, service) {
        var j :| 0 <= j < |entries| && entries[j].1 == s && EqualsIgnoreCase(entries[j].0, service);
        if j < |init| {
          assert init[j] == entries[j];
        }
      }
    }
  }

  /** A service is collected exactly when some partition holds it under a name equal to the service ignoring case. */
  lemma ServiceDataMember(ps: seq<Partition>, service: string, s: Service)
    ensures s in ServiceData(ps, service)
            <==> exists i, j :: 0 <= i < |ps| && 0 <= j < |ps[i].services|
                                && ps[i].services[j].1 == s && EqualsIgnoreCase(ps[i].services[j].0, service)
  {
    var f := (p: Partition) => MatchingServices(p.services, service);
    ConcatMapMember(ps, f, s);
    if s in ServiceData(ps, service) {
      var i :| 0 <= i < |ps| && s in f(ps[i]);
      MatchingServicesMember(ps[i].services, service, s);
    }
    if exists i, j :: 0 <= i < |ps| && 0 <= j < |ps[i].services|
                      && ps[i].services[j].1 == s && EqualsIgnoreCase(ps[i].services[j].0, service) {
      var i, j :| 0 <= i < |ps| && 0 <= j < |ps[i].services|
                  && ps[i].services[j].1 == s && EqualsIgnoreCase(ps[i].services[j].0, service);
      MatchingServicesMember(ps[i].services, service, s);
      assert s in f(ps[i]);
    }
  }

  /** Service data is collected partition by partition: splitting the partitions splits the result. */
  lemma ServiceDataAppend(ps1: seq<Partition>, ps2: seq<Partition>, service: string)
    ensures ServiceData(ps1 + ps2, service) == ServiceData(ps1, service) + ServiceData(ps2, service)
  {
    ConcatMapAppend(ps1, ps2, (p: Partition) => MatchingServices(p.services, service));
  }

  // ---------------------------------------------------------------------------
  // serviceEndpoints and signingRegionOverrides

  /** The two override tables the generated class holds. */
  datatype OverrideTable = EndpointHostnames | SigningRegions

  /**
   * The value an endpoint contributes to a table: its hostname, or the region
   * of its credential scope; `None` when the endpoint is filtered out.
   */
  function Selected(e: Endpoint, table: OverrideTable): Option<string>
  {
    match table
    case EndpointHostnames => e.hostname
    case SigningRegions =>
      if e.credentialScope.Some? && e.credentialScope.value.region.Some? then e.credentialScope.value.region else None
  }

  /** The (region id, value) pairs of the endpoints that contribute to the table, in order. */
  function SelectedEntries(endpoints: seq<(string, Endpoint)>, table: OverrideTable): seq<(string, string)>
  {
    if endpoints == [] then []
    else
      var e := endpoints[|endpoints| - 1];
      var v := Selected(e.1, table);
      SelectedEntries(endpoints[..|endpoints| - 1], table) + (if v.Some? then [(e.0, v.value)] else [])
  }

  /** The entries of the table contributed by every service, in order. */
  function OverrideEntries(services: seq<Service>, table: OverrideTable): seq<(string, string)>
  {
    if services == [] then []
    else OverrideEntries(services[..|services| - 1], table) + SelectedEntries(services[|services| - 1].endpoints, table)
  }

  /** Every endpoint of the services, in order. */
  function AllEndpoints(services: seq<Service>): seq<(string, Endpoint)>
  {
    if services == [] then [] else AllEndpoints(services[..|services| - 1]) + services[|services| - 1].endpoints
  }

  /** How many of the endpoints contribute to the table. */
  function SelectedCount(endpoints: seq<(string, Endpoint)>, table: OverrideTable): (n: nat)
    ensures n <= |endpoints|
  {
    if endpoints == [] then 0
    else SelectedCount(endpoints[..|endpoints| - 1], table)
         + (if Selected(endpoints[|endpoints| - 1].1, table).Some? then 1 else 0)
  }

  /** Some endpoint of the services, with that region id, contributes that value to the table. */
  ghost predicate OverriddenBy(services: seq<Service>, table: OverrideTable, regionId: string, value: string)
  {
    exists i, j :: 0 <= i < |services| && 0 <= j < |services[i].endpoints|
                   && services[i].endpoints[j].0 == regionId && Selected(services[i].endpoints[j].1, table) == Some(value)
  }

  /** Some endpoint of the services, with that region id, contributes to the table. */
  ghost predicate HasOverride(services: seq<Service>, table: OverrideTable, regionId: string)
  {
    exists i, j :: 0 <= i < |services| && 0 <= j < |services[i].endpoints|
                   && services[i].endpoints[j].0 == regionId && Selected(services[i].endpoints[j].1, table).Some?
  }

  lemma {:induction false} SelectedEntriesMember(endpoints: seq<(string, Endpoint)>, table: OverrideTable, k: string, v: string)
    ensures (k, v) in SelectedEntries(endpoints, table)
            <==> exists j :: 0 <= j < |endpoints| && endpoints[j].0 == k && Selected(endpoints[j].1, table) == Some(v)
  {
    if endpoints != [] {
      var init := endpoints[..|endpoints| - 1];
      SelectedEntriesMember(init, table, k, v);
      if (k, v) in SelectedEntries(init, table) {
        var j :| 0 <= j < |init| && init[j].0 == k && Selected(init[j].1, table) == Some(v);
        assert endpoints[j] == init[j];
      }
      if exists j :: 0 <= j < |endpoints| && endpoints[j].0 == k && Selected(endpoints[j].1, table) == Some(v) {
        var j :| 0 <= j < |endpoints| && endpoints[j].0 == k && Selected(endpoints[j].1, table) == Some(v);
        if j < |init| {
          assert init[j] == endpoints[j];
        }
      }
    }
  }

  /** A pair is in the table exactly when some endpoint with that region id contributes that value. */
  lemma {:induction false} OverrideEntriesMember(services: seq<Service>, table: OverrideTable, k: string, v: string)
    ensures (k, v) in OverrideEntries(services, table) <==> OverriddenBy(services, table, k, v)
  {
    if services != [] {
      var init := services[..|services| - 1];
      var last := services[|services| - 1];
      OverrideEntriesMember(init, table, k, v);
      SelectedEntriesMember(last.endpoints, table, k, v);
      if OverriddenBy(init, table, k, v) {
        var i, j :| 0 <= i < |init| && 0 <= j < |init[i].endpoints|
                    && init[i].endpoints[j].0 == k && Selected(init[i].endpoints[j].1, table) == Some(v);
        assert services[i] == init[i];
      }
      if (k, v) in SelectedEntries(last.endpoints, table) {
        var j :| 0 <= j < |last.endpoints| && last.endpoints[j].0 == k && Selected(last.endpoints[j].1, table) == Some(v);
        assert services[|services| - 1] == last;
      }
      if OverriddenBy(services, table, k, v) {
        var i, j :| 0 <= i < |services| && 0 <= j < |services[i].endpoints|
                    && services[i].endpoints[j].0 == k && Selected(services[i].endpoints[j].1, table) == Some(v);
        if i < |init| {
          assert init[i] == services[i];
        }
      }
    }
  }

  lemma {:induction false} SelectedCountAppend(a: seq<(string, Endpoint)>, b: seq<(string, Endpoint)>, table: OverrideTable)
    ensures SelectedCount(a + b, table) == SelectedCount(a, table) + SelectedCount(b, table)
  {
    if b == [] {
      assert a + b == a;
    } else {
      assert (a + b)[..|a + b| - 1] == a + b[..|b| - 1];
      SelectedCountAppend(a, b[..|b| - 1], table);
    }
  }

  /** One entry per contributing endpoint: the other endpoints are left out, and nothing else is added. */
  lemma {:induction false} OverrideEntriesCount(services: seq<Service>, table: OverrideTable)
    ensures |OverrideEntries(services, table)| == SelectedCount(AllEndpoints(services), table)
  {
    if services != [] {
      var init := services[..|services| - 1];
      var last := services[|services| - 1].endpoints;
      OverrideEntriesCount(init, table);
      SelectedEntriesCount(last, table);
      SelectedCountAppend(AllEndpoints(init), last, table);
    }
  }

  lemma {:induction false} SelectedEntriesCount(endpoints: seq<(string, Endpoint)>, table: OverrideTable)
    ensures |SelectedEntries(endpoints, table)| == SelectedCount(endpoints, table)
  {
    if endpoints != [] {
      SelectedEntriesCount(endpoints[..|endpoints| - 1], table);
    }
  }

  // The emitted initializer of a table: `ImmutableMap.<String, String>builder()`,
  // one `.put("key", "value")` per entry, `.build()`. Key and value are spliced
  // into the format string itself.

  const ImmutableMapClass := "software.amazon.awssdk.utils.ImmutableMap"
  const MapBuilderStart := Code("$T.<String, String>builder()", [TypeArg(ImmutableMapClass)])
  const MapBuild := Code(".build()", [])
  const PutOpen := ".put(\""
  const PutMiddle := "\", \""
  const PutClose := "\")"

  function PutFragment(key: string, value: string): Fragment
  {
    Code(PutOpen + key + PutMiddle + value + PutClose, [])
  }

  function PutFragments(entries: seq<(string, string)>): (fs: seq<Fragment>)
    ensures |fs| == |entries|
    ensures forall i :: 0 <= i < |entries| ==> fs[i] == PutFragment(entries[i].0, entries[i].1)
  {
    seq(|entries|, i requires 0 <= i < |entries| => PutFragment(entries[i].0, entries[i].1))
  }

  function PutTable(entries: seq<(string, string)>): seq<Fragment>
  {
    [MapBuilderStart] + PutFragments(entries) + [MapBuild]
  }

  lemma PutFragmentsAppend(a: seq<(string, string)>, b: seq<(string, string)>)
    ensures PutFragments(a + b) == PutFragments(a) + PutFragments(b)
  {
  }

  /** The inner `forEach` of a table initializer: one `put` per endpoint of one service that passes the filter. */
  method AddPuts(builder: CodeBlockBuilder, endpoints: seq<(string, Endpoint)>, table: OverrideTable)
    modifies builder
    ensures builder.code == old(builder.code) + PutFragments(SelectedEntries(endpoints, table))
  {
    var j := 0;
    while j < |endpoints|
      invariant 0 <= j <= |endpoints|
      invariant builder.code == old(builder.code) + PutFragments(SelectedEntries(endpoints[..j], table))
    {
      var value := Selected(endpoints[j].1, table);
      ghost var before := SelectedEntries(endpoints[..j], table);
      assert endpoints[..j + 1][..j] == endpoints[..j];
      if value.Some? {
        builder.Add(PutFragment(endpoints[j].0, value.value));
        PutFragmentsAppend(before, [(endpoints[j].0, value.value)]);
      }
      j := j + 1;
    }
    assert endpoints[..j] == endpoints;
  }

  /** The outer `forEach` of a table initializer: the `put`s of every service, service by service. */
  method AddTablePuts(builder: CodeBlockBuilder, services: seq<Service>, table: OverrideTable)
    modifies builder
    ensures builder.code == old(builder.code) + PutFragments(OverrideEntries(services, table))
  {
    var i := 0;
    ghost var done: seq<(string, string)> := [];
    while i < |services|
      invariant 0 <= i <= |services|
      invariant done == OverrideEntries(services[..i], table)
      invariant builder.code == old(builder.code) + PutFragments(done)
    {
      ghost var added := SelectedEntries(services[i].endpoints, table);
      PutFragmentsAppend(done, added);
      assert services[..i + 1][..i] == services[..i];
      ghost var code := builder.code;
      AddPuts(builder, services[i].endpoints, table);
      assert builder.code == code + PutFragments(added);
      done := done + added;
      i := i + 1;
    }
    assert services[..i] == services;
  }

  /**
   * The initializer of one override table for the given service data; the
   * endpoints are visited service by service, in order.
   */
  method OverrideTableInitializer(services: seq<Service>, table: OverrideTable) returns (block: seq<Fragment>)
    ensures block == PutTable(OverrideEntries(services, table))
  {
    var builder := new CodeBlockBuilder();
    builder.Add(MapBuilderStart);
    AddTablePuts(builder, services, table);
    builder.Add(MapBuild);
    block := builder.code;
  }

  /** `serviceEndpoints`: the REGION_OVERRIDDEN_ENDPOINTS initializer. */
  method ServiceEndpoints(g: Generator) returns (block: seq<Fragment>)
    ensures block == PutTable(OverrideEntries(ServiceData(g.partitions.partitions, g.service), EndpointHostnames))
  {
    var services := GetServiceData(g.partitions, g.service);
    block := OverrideTableInitializer(services, EndpointHostnames);
  }

  /** `signingRegionOverrides`: the SIGNING_REGION_OVERRIDES initializer. */
  method SigningRegionOverrides(g: Generator) returns (block: seq<Fragment>)
    ensures block == PutTable(OverrideEntries(ServiceData(g.partitions.partitions, g.service), SigningRegions))
  {
    var services := GetServiceData(g.partitions, g.service);
    block := OverrideTableInitializer(services, SigningRegions);
  }

  // Reading an initializer back. JavaPoet passes a format without `$` through
  // unchanged, and the Java compiler reads a string literal without quote,
  // backslash or line terminator as exactly its characters; the decoder accepts
  // only such plain literals.

  /** A character that stands for itself both in a JavaPoet format and in a Java string literal. */
  predicate PlainLiteralChar(c: char)
  {
    c != '"' && c != '\\' && c != '$' && c != '\n' && c != '\r'
  }

  predicate PlainLiteral(s: string)
  {
    forall i :: 0 <= i < |s| ==> PlainLiteralChar(s[i])
  }

  /** The key and value of a `.put("key", "value")` fragment whose key and value are plain literals. */
  function ParsePut(f: Fragment): Option<(string, string)>
  {
    if !f.Code? || f.args != [] then None
    else
      var fmt := f.format;
      if |fmt| < |PutOpen| + |PutClose| || fmt[..|PutOpen|] != PutOpen || fmt[|fmt| - |PutClose|..] != PutClose then None
      else ParsePutBody(fmt[|PutOpen|..|fmt| - |PutClose|])
  }

  /** The key and value of `key", "value`, split at the first quote. */
  function ParsePutBody(body: string): Option<(string, string)>
  {
    match IndexOf(body, '"')
    case None => None
    case Some(k) =>
      if k + |PutMiddle| <= |body| && body[k..k + |PutMiddle|] == PutMiddle
         && PlainLiteral(body[..k]) && PlainLiteral(body[k + |PutMiddle|..])
      then Some((body[..k], body[k + |PutMiddle|..]))
      else None
  }

  function ParsePuts(fs: seq<Fragment>): Option<seq<(string, string)>>
  {
    if fs == [] then Some([])
    else
      match ParsePuts(fs[..|fs| - 1])
      case None => None
      case Some(init) =>
        match ParsePut(fs[|fs| - 1])
        case None => None
        case Some(e) => Some(init + [e])
  }

  /** The entries a table initializer puts, in order; `None` if it is not of that form. */
  function ParsePutTable(block: seq<Fragment>): Option<seq<(string, string)>>
  {
    if |block| >= 2 && block[0] == MapBuilderStart && block[|block| - 1] == MapBuild
    then ParsePuts(block[1..|block| - 1])
    else None
  }

  /**
   * Keys and values are plain literals: spliced into the format, each stays one
   * Java string literal that denotes exactly its characters.
   */
  predicate PlainEntries(entries: seq<(string, string)>)
  {
    forall i :: 0 <= i < |entries| ==> PlainLiteral(entries[i].0) && PlainLiteral(entries[i].1)
  }

  lemma PutRoundTrip(key: string, value: string)
    requires PlainLiteral(key) && PlainLiteral(value)
    ensures ParsePut(PutFragment(key, value)) == Some((key, value))
  {
    assert '"' !in key by {
      forall i | 0 <= i < |key| ensures key[i] != '"' { assert PlainLiteralChar(key[i]); }
    }
    var body := key + PutMiddle + value;
    PutFormat(key, value);
    QuoteAfterKey(key, value);
    assert body[..|key|] == key;
    assert body[|key|..|key| + |PutMiddle|] == PutMiddle;
    assert body[|key| + |PutMiddle|..] == value;
  }

  /** Decoding a `put` fragment is decoding the text between its parentheses' quotes. */
  lemma PutFormat(key: string, value: string)
    ensures ParsePut(PutFragment(key, value)) == ParsePutBody(key + PutMiddle + value)
  {
    var body := key + PutMiddle + value;
    var fmt := PutOpen + body + PutClose;
    assert PutFragment(key, value).format == fmt;
    assert fmt[..|PutOpen|] == PutOpen;
    assert fmt[|fmt| - |PutClose|..] == PutClose;
    assert fmt[|PutOpen|..|fmt| - |PutClose|] == body;
  }

  /** The first quote of `key", "value` is the one right after the key. */
  lemma QuoteAfterKey(key: string, value: string)
    requires '"' !in key
    ensures IndexOf(key + PutMiddle + value, '"') == Some(|key|)
  {
    assert key + PutMiddle + value == key + (PutMiddle + value);
    IndexOfAfter(key, PutMiddle + value, '"');
  }

  /** The first quote of `key", "value` lies in the key or right after it. */
  lemma QuoteWithinKey(key: string, value: string)
    ensures IndexOf(key + PutMiddle + value, '"').Some?
    ensures IndexOf(key + PutMiddle + value, '"').value <= |key|
  {
    var body := key + PutMiddle + value;
    assert body[|key|] == '"';
    assert '"' in body;
    assert forall n :: |key| < n <= |body| ==> body[..n][|key|] == '"';
  }

  /**
   * The converse of `PutRoundTrip`: a `put` whose key or value is not a plain
   * literal (a quote ending the literal early, a backslash starting an escape,
   * a `$` that JavaPoet reads as a placeholder, a line break) is refused.
   */
  lemma NotPlainRefused(key: string, value: string)
    requires !(PlainLiteral(key) && PlainLiteral(value))
    ensures ParsePut(PutFragment(key, value)) == None
  {
    var body := key + PutMiddle + value;
    PutFormat(key, value);
    QuoteWithinKey(key, value);
    var k := IndexOf(body, '"').value;
    if k < |key| {
      // A quote inside the key: the decoded value would hold the quote that follows the key.
      if k + |PutMiddle| <= |body| {
        var v := body[k + |PutMiddle|..];
        assert v[|key| - 1 - k] == body[|key| + 3] == '"';
        assert !PlainLiteralChar(v[|key| - 1 - k]);
      }
    } else {
      assert body[..k] == key;
      assert body[k..k + |PutMiddle|] == PutMiddle;
      assert body[k + |PutMiddle|..] == value;
    }
  }

  /** Reading back a table initializer gives exactly the entries it was built from, in order. */
  lemma {:induction false} PutTableRoundTrip(entries: seq<(string, string)>)
    requires PlainEntries(entries)
    ensures ParsePutTable(PutTable(entries)) == Some(entries)
  {
    var block := PutTable(entries);
    assert block[1..|block| - 1] == PutFragments(entries);
    PutsRoundTrip(entries);
  }

  lemma {:induction false} PutsRoundTrip(entries: seq<(string, string)>)
    requires PlainEntries(entries)
    ensures ParsePuts(PutFragments(entries)) == Some(entries)
  {
    if entries != [] {
      var init := entries[..|entries| - 1];
      var last := entries[|entries| - 1];
      var fs := PutFragments(entries);
      assert entries == init + [last];
      PutFragmentsAppend(init, [last]);
      assert fs[..|fs| - 1] == PutFragments(init);
      PutsRoundTrip(init);
      PutRoundTrip(last.0, last.1);
    }
  }

  // ---------------------------------------------------------------------------
  // regionsField

  /** The region ids of a service's endpoints, in order (`keySet()`). */
  function Keys<V>(entries: seq<(string, V)>): (ks: seq<string>)
    ensures |ks| == |entries|
    ensures forall i :: 0 <= i < |entries| ==> ks[i] == entries[i].0
  {
    seq(|entries|, i requires 0 <= i < |entries| => entries[i].0)
  }

  /**
   * The REGIONS list: for every partition whose services hold the service name
   * exactly (case-sensitive), the region ids of that service's endpoints.
   */
  function RegionList(ps: seq<Partition>, service: string): seq<string>
  {
    ConcatMap(ps, p => PartitionRegions(p, service))
  }

  /** The region ids one partition contributes: its endpoint keys for the service, if it holds it exactly. */
  function PartitionRegions(p: Partition, service: string): seq<string>
  {
    var found := Lookup(p.services, service);
    if found.Some? then Keys(found.value.endpoints) else []
  }

  /** The partition holds the service under exactly its name, with an endpoint for region `r`. */
  predicate DeclaresRegion(p: Partition, service: string, r: string)
  {
    var found := Lookup(p.services, service);
    found.Some? && r in Keys(found.value.endpoints)
  }

  /** A region id is listed exactly when some partition declares an endpoint for it under the exact service name. */
  lemma RegionListMember(ps: seq<Partition>, service: string, r: string)
    ensures r in RegionList(ps, service) <==> exists i :: 0 <= i < |ps| && DeclaresRegion(ps[i], service, r)
  {
    var f := p => PartitionRegions(p, service);
    ConcatMapMember(ps, f, r);
    forall i | 0 <= i < |ps| ensures (r in f(ps[i])) == DeclaresRegion(ps[i], service, r) { }
  }

  /** Regions are collected partition by partition: splitting the partitions splits the list. */
  lemma RegionListAppend(ps1: seq<Partition>, ps2: seq<Partition>, service: string)
    ensures RegionList(ps1 + ps2, service) == RegionList(ps1, service) + RegionList(ps2, service)
  {
    ConcatMapAppend(ps1, ps2, p => PartitionRegions(p, service));
  }

  const CollectionsClass := "java.util.Collections"
  const ArraysClass := "java.util.Arrays"
  const RegionListOpen := Code("$T.unmodifiableList($T.asList(", [TypeArg(CollectionsClass), TypeArg(ArraysClass)])
  const RegionListClose := Code("))", [])
  const Comma := Code(",", [])

  function RegionClass(regionBasePackage: string): string
  {
    QualifiedName(ClassName(regionBasePackage, "Region"))
  }

  /** `Region.of("id")`. */
  function RegionOf(regionClass: string, regionId: string): Fragment
  {
    Code("$T.of($S)", [TypeArg(regionClass), StringArg(regionId)])
  }

  /** Every region followed by a comma. */
  function Punctuated(regionClass: string, rs: seq<string>): seq<Fragment>
  {
    if rs == [] then []
    else Punctuated(regionClass, rs[..|rs| - 1]) + [RegionOf(regionClass, rs[|rs| - 1]), Comma]
  }

  /** The regions as emitted: a comma after each region but the last. */
  function RegionElements(regionClass: string, rs: seq<string>): seq<Fragment>
  {
    if rs == [] then []
    else Punctuated(regionClass, rs[..|rs| - 1]) + [RegionOf(regionClass, rs[|rs| - 1])]
  }

  function RegionsFieldBlock(regionClass: string, rs: seq<string>): seq<Fragment>
  {
    [RegionListOpen] + RegionElements(regionClass, rs) + [RegionListClose]
  }

  /** The region ids `regionsField` collects into its list, partition by partition. */
  method CollectRegions(ps: seq<Partition>, service: string) returns (regions: seq<string>)
    ensures regions == RegionList(ps, service)
  {
    regions := [];
    var k := 0;
    while k < |ps|
      invariant 0 <= k <= |ps|
      invariant regions == RegionList(ps[..k], service)
    {
      var found := Lookup(ps[k].services, service);
      if found.Some? {
        regions := regions + Keys(found.value.endpoints);
      }
      assert ps[..k + 1][..k] == ps[..k];
      k := k + 1;
    }
    assert ps[..k] == ps;
  }

  /** The index loop of `regionsField`: each region, then a comma unless it is the last. */
  method EmitRegions(regionClass: string, regions: seq<string>) returns (block: seq<Fragment>)
    ensures block == RegionsFieldBlock(regionClass, regions)
  {
    var builder := new CodeBlockBuilder();
    builder.Add(RegionListOpen);
    var n := |regions|;
    var i := 0;
    while i < n
      invariant 0 <= i <= n
      invariant builder.code
                == [RegionListOpen] + (if i == n then RegionElements(regionClass, regions) else Punctuated(regionClass, regions[..i]))
    {
      ghost var done := regions[..i + 1];
      assert done[..i] == regions[..i] && done[i] == regions[i];
      assert builder.code == [RegionListOpen] + Punctuated(regionClass, regions[..i]);
      builder.Add(RegionOf(regionClass, regions[i]));
      if i != n - 1 {
        builder.Add(Comma);
        assert Punctuated(regionClass, done) == Punctuated(regionClass, regions[..i]) + [RegionOf(regionClass, regions[i]), Comma];
      } else {
        assert RegionElements(regionClass, regions) == Punctuated(regionClass, regions[..i]) + [RegionOf(regionClass, regions[i])];
      }
      i := i + 1;
    }
    builder.Add(RegionListClose);
    block := builder.code;
  }

  /** `regionsField`: the REGIONS initializer. */
  method RegionsField(g: Generator) returns (block: seq<Fragment>)
    ensures block == RegionsFieldBlock(RegionClass(g.regionBasePackage), RegionList(g.partitions.partitions, g.service))
  {
    var regions := CollectRegions(g.partitions.partitions, g.service);
    block := EmitRegions(RegionClass(g.regionBasePackage), regions);
  }

  lemma {:induction false} PunctuatedShape(regionClass: string, rs: seq<string>)
    ensures var fs := Punctuated(regionClass, rs);
            |fs| == 2 * |rs|
            && forall j :: 0 <= j < |fs| ==> fs[j] == if j % 2 == 0 then RegionOf(regionClass, rs[j / 2]) else Comma
  {
    if rs != [] {
      PunctuatedShape(regionClass, rs[..|rs| - 1]);
    }
  }

  /**
   * Region k of n sits at position 2k, and a comma at every odd position: n - 1
   * commas, one between each two consecutive regions and none after the last.
   */
  lemma RegionElementsShape(regionClass: string, rs: seq<string>)
    requires rs != []
    ensures var fs := RegionElements(regionClass, rs);
            |fs| == 2 * |rs| - 1
            && forall j :: 0 <= j < |fs| ==> fs[j] == if j % 2 == 0 then RegionOf(regionClass, rs[j / 2]) else Comma
  {
    PunctuatedShape(regionClass, rs[..|rs| - 1]);
  }

  function CountCommas(fs: seq<Fragment>): nat
  {
    if fs == [] then 0 else CountCommas(fs[..|fs| - 1]) + (if fs[|fs| - 1] == Comma then 1 else 0)
  }

  lemma {:induction false} CountCommasAppend(a: seq<Fragment>, b: seq<Fragment>)
    ensures CountCommas(a + b) == CountCommas(a) + CountCommas(b)
  {
    if b == [] {
      assert a + b == a;
    } else {
      assert (a + b)[..|a + b| - 1] == a + b[..|b| - 1];
      CountCommasAppend(a, b[..|b| - 1]);
    }
  }

  lemma {:induction false} PunctuatedCommas(regionClass: string, rs: seq<string>)
    ensures CountCommas(Punctuated(regionClass, rs)) == |rs|
  {
    if rs != [] {
      var pair := [RegionOf(regionClass, rs[|rs| - 1]), Comma];
      PunctuatedCommas(regionClass, rs[..|rs| - 1]);
      CountCommasAppend(Punctuated(regionClass, rs[..|rs| - 1]), pair);
      assert pair[..1] == [RegionOf(regionClass, rs[|rs| - 1])];
      assert pair[..1][..0] == [];
      assert CountCommas(pair[..1]) == 0;
    }
  }

  /** The emitted list of n regions holds n - 1 commas (none for an empty list). */
  lemma RegionsFieldCommas(regionClass: string, rs: seq<string>)
    ensures CountCommas(RegionsFieldBlock(regionClass, rs)) == if rs == [] then 0 else |rs| - 1
  {
    var elements := RegionElements(regionClass, rs);
    CountCommasAppend([RegionListOpen], elements);
    CountCommasAppend([RegionListOpen] + elements, [RegionListClose]);
    assert CountCommas([RegionListOpen]) == 0;
    assert CountCommas([RegionListClose]) == 0;
    if rs != [] {
      var last := [RegionOf(regionClass, rs[|rs| - 1])];
      PunctuatedCommas(regionClass, rs[..|rs| - 1]);
      CountCommasAppend(Punctuated(regionClass, rs[..|rs| - 1]), last);
      assert CountCommas(last) == 0;
    }
  }

  // Reading the region list back.

  function ParseRegionOf(regionClass: string, f: Fragment): Option<string>
  {
    if f.Code? && f.format == "$T.of($S)" && |f.args| == 2 && f.args[0] == TypeArg(regionClass) && f.args[1].StringArg?
    then Some(f.args[1].value)
    else None
  }

  /** Regions separated by single commas, without a trailing comma. */
  function ParseRegionElements(regionClass: string, fs: seq<Fragment>): Option<seq<string>>
    decreases |fs|
  {
    if fs == [] then Some([])
    else
      match ParseRegionOf(regionClass, fs[0])
      case None => None
      case Some(r) =>
        if |fs| == 1 then Some([r])
        else if fs[1] == Comma && |fs| > 2 then
          match ParseRegionElements(regionClass, fs[2..])
          case None => None
          case Some(rest) => Some([r] + rest)
        else None
  }

  function ParseRegionsField(regionClass: string, block: seq<Fragment>): Option<seq<string>>
  {
    if |block| >= 2 && block[0] == RegionListOpen && block[|block| - 1] == RegionListClose
    then ParseRegionElements(regionClass, block[1..|block| - 1])
    else None
  }

  /** After the first region and its comma, the emitted elements are those of the remaining regions. */
  lemma RegionElementsTail(regionClass: string, rs: seq<string>)
    requires |rs| >= 2
    ensures var fs := RegionElements(regionClass, rs);
            |fs| >= 2 && fs[0] == RegionOf(regionClass, rs[0]) && fs[1] == Comma
            && fs[2..] == RegionElements(regionClass, rs[1..])
  {
    var fs := RegionElements(regionClass, rs);
    var tail := rs[1..];
    var ts := RegionElements(regionClass, tail);
    RegionElementsShape(regionClass, rs);
    RegionElementsShape(regionClass, tail);
    forall j | 0 <= j < |ts| ensures fs[j + 2] == ts[j] {
      assert (j + 2) % 2 == j % 2 && (j + 2) / 2 == j / 2 + 1;
    }
  }

  lemma {:induction false} RegionElementsRoundTrip(regionClass: string, rs: seq<string>)
    ensures ParseRegionElements(regionClass, RegionElements(regionClass, rs)) == Some(rs)
    decreases |rs|
  {
    if |rs| == 1 {
      assert RegionElements(regionClass, rs) == [RegionOf(regionClass, rs[0])];
      assert rs == [rs[0]];
    } else if |rs| >= 2 {
      RegionElementsTail(regionClass, rs);
      RegionElementsRoundTrip(regionClass, rs[1..]);
      assert [rs[0]] + rs[1..] == rs;
    }
  }

  /** Reading the emitted REGIONS initializer back gives the region list, in order. */
  lemma RegionsFieldRoundTrip(regionClass: string, rs: seq<string>)
    ensures ParseRegionsField(regionClass, RegionsFieldBlock(regionClass, rs)) == Some(rs)
  {
    var block := RegionsFieldBlock(regionClass, rs);
    assert block[1..|block| - 1] == RegionElements(regionClass, rs);
    RegionElementsRoundTrip(regionClass, rs);
  }

  /** Every partition that contributes regions also contributes its service to the service data. */
  lemma RegionSourceInServiceData(ps: seq<Partition>, service: string, i: nat)
    requires i < |ps| && Lookup(ps[i].services, service).Some?
    ensures Lookup(ps[i].services, service).value in ServiceData(ps, service)
  {
    var s := Lookup(ps[i].services, service).value;
    var j :| 0 <= j < |ps[i].services| && ps[i].services[j] == (service, s);
    assert EqualsIgnoreCase(service, service);
    ServiceDataMember(ps, service, s);
  }

  /**
   * The two collections disagree on case: a partition that names the service
   * "S3" contributes to the override tables of service "s3" but not to its
   * region list.
   */
  lemma CaseSensitivityGap()
    ensures var e := Endpoint(Some("s3.example"), None);
            var ps := [Partition([("S3", Service([("us-east-1", e)]))])];
            RegionList(ps, "s3") == [] && ServiceData(ps, "s3") == [Service([("us-east-1", e)])]
  {
    var e := Endpoint(Some("s3.example"), None);
    var entries := [("S3", Service([("us-east-1", e)]))];
    var ps := [Partition(entries)];
    assert ToUpperAscii('s') == 'S';
    assert EqualsIgnoreCase("S3", "s3");
    assert "S3" != "s3";
    assert ps[..0] == [];
    assert entries[..0] == [];
    assert MatchingServices(entries, "s3") == [Service([("us-east-1", e)])];
    assert ServiceData(ps, "s3") == ServiceData([], "s3") + MatchingServices(entries, "s3");
  }

  // ---------------------------------------------------------------------------
  // The generated class and what its methods compute.

  /** A region-overrides map as the ImmutableMap builder holds it: a later put replaces an earlier one. */
  function ToMap(entries: seq<(string, string)>): (m: map<string, string>)
    ensures forall k :: k in m <==> exists i :: 0 <= i < |entries| && entries[i].0 == k
    ensures forall k :: k in m ==> exists i :: 0 <= i < |entries| && entries[i] == (k, m[k])
  {
    if entries == [] then map[]
    else
      var init := entries[..|entries| - 1];
      var last := entries[|entries| - 1];
      assert forall i :: 0 <= i < |init| ==> init[i] == entries[i];
      ToMap(init)[last.0 := last.1]
  }

  /** The static fields of a generated class. */
  datatype GeneratedServiceMetadata = GeneratedServiceMetadata(
    endpointPrefix: string,
    regionOverriddenEndpoints: map<string, string>,
    regions: seq<string>,
    signingRegionOverrides: map<string, string>)

  /** What the generator's output holds for its partitions and service. */
  function GeneratedMetadata(g: Generator): GeneratedServiceMetadata
  {
    var sd := ServiceData(g.partitions.partitions, g.service);
    GeneratedServiceMetadata(
      g.service,
      ToMap(OverrideEntries(sd, EndpointHostnames)),
      RegionList(g.partitions.partitions, g.service),
      ToMap(OverrideEntries(sd, SigningRegions)))
  }

  /**
   * The generated `endpointFor(region)`: the overridden endpoint for the region
   * id, else `computeEndpoint(ENDPOINT_PREFIX, region)`; the string handed to
   * `URI.create`.
   */
  function EndpointFor(md: GeneratedServiceMetadata, computeEndpoint: (string, string) -> string, regionId: string): string
  {
    if regionId in md.regionOverriddenEndpoints then md.regionOverriddenEndpoints[regionId]
    else computeEndpoint(md.endpointPrefix, regionId)
  }

  /** The id of the region the generated `signingRegion(region)` returns. */
  function SigningRegion(md: GeneratedServiceMetadata, regionId: string): string
  {
    if regionId in md.signingRegionOverrides then md.signingRegionOverrides[regionId] else regionId
  }

  lemma TableLookup(sd: seq<Service>, table: OverrideTable, regionId: string)
    ensures var m := ToMap(OverrideEntries(sd, table));
            (regionId in m <==> HasOverride(sd, table, regionId))
            && (regionId in m ==> OverriddenBy(sd, table, regionId, m[regionId]))
  {
    var entries := OverrideEntries(sd, table);
    var m := ToMap(entries);
    if regionId in m {
      var i :| 0 <= i < |entries| && entries[i] == (regionId, m[regionId]);
      OverrideEntriesMember(sd, table, regionId, m[regionId]);
    }
    if HasOverride(sd, table, regionId) {
      var i, j :| 0 <= i < |sd| && 0 <= j < |sd[i].endpoints|
                  && sd[i].endpoints[j].0 == regionId && Selected(sd[i].endpoints[j].1, table).Some?;
      var v := Selected(sd[i].endpoints[j].1, table).value;
      OverrideEntriesMember(sd, table, regionId, v);
      var k :| 0 <= k < |entries| && entries[k] == (regionId, v);
    }
  }

  /**
   * `endpointFor` on the generated class returns a hostname that an endpoint of
   * the service under that region id declares, when one does; otherwise the
   * endpoint computed from the service name and the region.
   */
  lemma EndpointForResolution(g: Generator, computeEndpoint: (string, string) -> string, regionId: string)
    ensures var sd := ServiceData(g.partitions.partitions, g.service);
            var uri := EndpointFor(GeneratedMetadata(g), computeEndpoint, regionId);
            (HasOverride(sd, EndpointHostnames, regionId) ==> OverriddenBy(sd, EndpointHostnames, regionId, uri))
            && (!HasOverride(sd, EndpointHostnames, regionId) ==> uri == computeEndpoint(g.service, regionId))
  {
    TableLookup(ServiceData(g.partitions.partitions, g.service), EndpointHostnames, regionId);
  }

  /**
   * `signingRegion` on the generated class returns the credential-scope region
   * an endpoint of the service under that region id declares, when one does;
   * otherwise the region itself.
   */
  lemma SigningRegionResolution(g: Generator, regionId: string)
    ensures var sd := ServiceData(g.partitions.partitions, g.service);
            var r := SigningRegion(GeneratedMetadata(g), regionId);
            (HasOverride(sd, SigningRegions, regionId) ==> OverriddenBy(sd, SigningRegions, regionId, r))
            && (!HasOverride(sd, SigningRegions, regionId) ==> r == regionId)
  {
    TableLookup(ServiceData(g.partitions.partitions, g.service), SigningRegions, regionId);
  }

  // ---------------------------------------------------------------------------
  // poetClass

  /** The emitted class: its name, the initializers of its four fields, and its methods. */
  datatype ServiceMetadataClass = ServiceMetadataClass(
    name: ClassName,
    superinterface: string,
    endpointPrefixInit: seq<Fragment>,
    regionOverriddenEndpointsInit: seq<Fragment>,
    regionsInit: seq<Fragment>,
    signingRegionOverridesInit: seq<Fragment>,
    methods: seq<string>)

  /** What JavaPoet and the Java compiler make of the class's field initializers, when they read back. */
  function Denotation(c: ServiceMetadataClass, regionBasePackage: string): Option<GeneratedServiceMetadata>
  {
    var endpoints := ParsePutTable(c.regionOverriddenEndpointsInit);
    var regions := ParseRegionsField(RegionClass(regionBasePackage), c.regionsInit);
    var signing := ParsePutTable(c.signingRegionOverridesInit);
    if |c.endpointPrefixInit| == 1 && c.endpointPrefixInit[0].Code? && c.endpointPrefixInit[0].format == "$S"
       && |c.endpointPrefixInit[0].args| == 1 && c.endpointPrefixInit[0].args[0].StringArg?
       && endpoints.Some? && regions.Some? && signing.Some?
    then Some(GeneratedServiceMetadata(c.endpointPrefixInit[0].args[0].value, ToMap(endpoints.value), regions.value, ToMap(signing.value)))
    else None
  }

  /** The region ids and values spliced into the two override tables are plain literals. */
  predicate LiteralsPlain(g: Generator)
  {
    var sd := ServiceData(g.partitions.partitions, g.service);
    PlainEntries(OverrideEntries(sd, EndpointHostnames)) && PlainEntries(OverrideEntries(sd, SigningRegions))
  }

  method PoetClass(g: Generator, capitalize: string -> string) returns (c: ServiceMetadataClass)
    ensures c.name == ClassNameOf(g, capitalize)
    ensures c.superinterface == QualifiedName(ClassName(g.regionBasePackage, "ServiceMetadata"))
    ensures c.methods == ["regions", "endpointFor", "signingRegion"]
    ensures LiteralsPlain(g) ==> Denotation(c, g.regionBasePackage) == Some(GeneratedMetadata(g))
  {
    var endpoints := ServiceEndpoints(g);
    var regions := RegionsField(g);
    var signing := SigningRegionOverrides(g);
    c := ServiceMetadataClass(
      ClassNameOf(g, capitalize),
      QualifiedName(ClassName(g.regionBasePackage, "ServiceMetadata")),
      [Code("$S", [StringArg(g.service)])],
      endpoints,
      regions,
      signing,
      ["regions", "endpointFor", "signingRegion"]);
    var sd := ServiceData(g.partitions.partitions, g.service);
    RegionsFieldRoundTrip(RegionClass(g.regionBasePackage), RegionList(g.partitions.partitions, g.service));
    if LiteralsPlain(g) {
      PutTableRoundTrip(OverrideEntries(sd, EndpointHostnames));
      PutTableRoundTrip(OverrideEntries(sd, SigningRegions));
    }
  }
}
