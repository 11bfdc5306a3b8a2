/** The two ways a batch reaches the service: the JSON route of the HTTP handler, and the gRPC client and server
    (internal/handler/metrics.go, internal/grpcapi/client.go, internal/grpcapi/server.go). */
module Transport {
  import opened Metrics
  import opened Snapshots
  import opened AgentProtocol
  import opened ServerProtocol
  import opened Service

  // ---------------------------------------------------------------- the wire form of a batch

  /** A protobuf message always has a delta and a value; its type may be a number without a name. */
  datatype WireType = WireGauge | WireCounter | Unnamed(n: int)

  datatype Item = Item(id: string, typ: WireType, delta: int64, value: Float)

  const ZERO: Float := Finite(0.0)

  /** What the client makes of one metric; None is an error. */
  function Encode(x: Metric): Option<Item> {
    match x.kind
    case Gauge => if x.value.None? then None else Some(Item(x.id, WireGauge, 0, x.value.value))
    case Counter => if x.delta.None? then None else Some(Item(x.id, WireCounter, x.delta.value, ZERO))
    case Unknown(_) => None
  }

  function EncodeAll(xs: seq<Metric>): Option<seq<Item>> {
    if xs == [] then Some([])
    else
      var r, item := EncodeAll(xs[..|xs| - 1]), Encode(xs[|xs| - 1]);
      if r.None? || item.None? then None else Some(r.value + [item.value])
  }

  /** What the server makes of one item, which may be missing; None is an invalid argument. */
  function Decode(item: Option<Item>): Option<Metric> {
    if item.None? || item.value.id == "" then None
    else
      match item.value.typ
      case WireGauge => if item.value.value.Finite? then Some(GaugeMetric(item.value.id, item.value.value)) else None
      case WireCounter => Some(CounterMetric(item.value.id, item.value.delta))
      case Unnamed(_) => None
  }

  function DecodeAll(items: seq<Option<Item>>): Option<seq<Metric>> {
    if items == [] then Some([])
    else
      var r, x := DecodeAll(items[..|items| - 1]), Decode(items[|items| - 1]);
      if r.None? || x.None? then None else Some(r.value + [x.value])
  }

  function Sent(items: seq<Item>): seq<Option<Item>> {
    seq(|items|, i requires 0 <= i < |items| => Some(items[i]))
  }

  /** The metric reduced to what the wire form carries. */
  function Canon(x: Metric): Metric {
    match x.kind
    case Gauge => x.(delta := None, hash := "")
    case _ => x.(value := None, hash := "")
  }

  function CanonAll(xs: seq<Metric>): (r: seq<Metric>)
    ensures |r| == |xs| && forall i | 0 <= i < |xs| :: r[i] == Canon(xs[i])
  {
    seq(|xs|, i requires 0 <= i < |xs| => Canon(xs[i]))
  }

  /** Named, and no gauge that is not finite. */
  predicate Sendable(x: Metric) { x.id != "" && (x.kind == Gauge && x.value.Some? ==> x.value.value.Finite?) }

  predicate AllSendable(xs: seq<Metric>) { forall x | x in xs :: Sendable(x) }

  lemma SendableAppend(xs: seq<Metric>, x: Metric)
    ensures AllSendable(xs + [x]) <==> AllSendable(xs) && Sendable(x)
  {
    assert x in xs + [x];
  }

  lemma ItemRoundTrip(x: Metric)
    requires Encode(x).Some?
    ensures Decode(Encode(x)) == if Sendable(x) then Some(Canon(x)) else None
  {
  }

  lemma {:induction false} EncodeFails(xs: seq<Metric>)
    ensures EncodeAll(xs).Some? <==> forall x | x in xs :: Effective(x)
    ensures EncodeAll(xs).Some? ==> |EncodeAll(xs).value| == |xs|
  {
    if xs != [] {
      var init, last := xs[..|xs| - 1], xs[|xs| - 1];
      EncodeFails(init);
      assert xs == init + [last] && last in xs;
    }
  }

  /** Decoding what the client encoded gives back the batch, reduced to what counts, and fails exactly for metrics
      without a name or gauges that are not finite. */
  lemma {:induction false} WireRoundTrip(xs: seq<Metric>)
    requires EncodeAll(xs).Some?
    ensures DecodeAll(Sent(EncodeAll(xs).value)) == if AllSendable(xs) then Some(CanonAll(xs)) else None
  {
    if xs == [] {
      assert CanonAll(xs) == [];
    } else {
      var init, last := xs[..|xs| - 1], xs[|xs| - 1];
      assert xs == init + [last];
      WireRoundTrip(init);
      ItemRoundTrip(last);
      SendableAppend(init, last);
      SentAppend(EncodeAll(init).value, Encode(last).value);
      assert CanonAll(xs) == CanonAll(init) + [Canon(last)];
    }
  }

  lemma SentAppend(items: seq<Item>, item: Item)
    ensures DecodeAll(Sent(items + [item])) ==
      if DecodeAll(Sent(items)).None? || Decode(Some(item)).None? then None
      else Some(DecodeAll(Sent(items)).value + [Decode(Some(item)).value])
  {
    assert Sent(items + [item]) == Sent(items) + [Some(item)];
    assert (Sent(items) + [Some(item)])[..|items|] == Sent(items);
  }

  /** What the wire form leaves out makes no difference to a store. */
  lemma {:induction false} CanonApplies(m: Maps, xs: seq<Metric>)
    ensures ApplyAll(m, CanonAll(xs)) == ApplyAll(m, xs)
  {
    if xs != [] {
      CanonApplies(m, xs[..|xs| - 1]);
      assert CanonAll(xs)[..|xs| - 1] == CanonAll(xs[..|xs| - 1]);
    }
  }

  lemma ReportMember(xs: seq<Metric>, m: Maps, x: Metric)
    requires IsListing(xs, m) && x in xs
    ensures Effective(x) && Canon(x) == x
  {
    ListingMembers(xs, m, x);
  }

  lemma ReportSendable(xs: seq<Metric>, m: Maps)
    requires IsListing(xs, m)
    ensures AllSendable(xs) <==> AllFinite(m) && "" !in m.gauges && "" !in m.counters
  {
    if AllSendable(xs) {
      forall name | name in m.gauges ensures name != "" && m.gauges[name].Finite? {
        ListingMembers(xs, m, GaugeMetric(name, m.gauges[name]));
      }
      forall name | name in m.counters ensures name != "" {
        ListingMembers(xs, m, CounterMetric(name, m.counters[name]));
      }
    } else {
      var x :| x in xs && !Sendable(x);
      ListingMembers(xs, m, x);
    }
  }

  /** The agent's own batches come through unchanged, so the server computes the fingerprint that it would have
      computed over HTTP; they are refused exactly for an empty name or a gauge that is not finite. */
  lemma ReportsSurvive(xs: seq<Metric>, m: Maps)
    requires IsListing(xs, m)
    ensures EncodeAll(xs).Some?
    ensures DecodeAll(Sent(EncodeAll(xs).value)) ==
      if AllFinite(m) && "" !in m.gauges && "" !in m.counters then Some(xs) else None
  {
    forall x | x in xs ensures Effective(x) && Canon(x) == x {
      ReportMember(xs, m, x);
    }
    EncodeFails(xs);
    WireRoundTrip(xs);
    ReportSendable(xs, m);
    forall i | 0 <= i < |xs| ensures CanonAll(xs)[i] == xs[i] {
      assert xs[i] in xs;
    }
    assert CanonAll(xs) == xs;
  }

  /** Whatever the server decodes may enter the protocol. */
  lemma {:induction false} DecodedAcceptable(items: seq<Option<Item>>)
    requires DecodeAll(items).Some? && items != []
    ensures Acceptable(DecodeAll(items).value) && FiniteValues(DecodeAll(items).value)
    ensures |DecodeAll(items).value| == |items|
  {
    if |items| > 1 {
      DecodedAcceptable(items[..|items| - 1]);
    }
    var xs := DecodeAll(items).value;
    forall x | x in xs ensures Valid(x) && (x.value.Some? ==> x.value.value.Finite?) {
      if x != xs[|xs| - 1] { assert x in xs[..|xs| - 1]; }
    }
  }

  // ---------------------------------------------------------------- validation over HTTP

  const OK: nat := 200
  const BAD_REQUEST: nat := 400
  const NOT_FOUND: nat := 404
  const CONFLICT: nat := 409
  const SERVER_ERROR: nat := 500

  function ValidateUpdateMetric(x: Metric): nat {
    if x.id == "" then NOT_FOUND
    else
      match x.kind
      case Gauge => if x.value.None? then BAD_REQUEST else OK
      case Counter => if x.delta.None? then BAD_REQUEST else OK
      case Unknown(_) => BAD_REQUEST
  }

  /** The answer of the validation loop: that of the first metric it does not let through. */
  function FirstInvalid(xs: seq<Metric>): nat {
    if xs == [] then OK
    else if ValidateUpdateMetric(xs[0]) != OK then ValidateUpdateMetric(xs[0])
    else FirstInvalid(xs[1..])
  }

  lemma {:induction false} FirstInvalidAfter(xs: seq<Metric>, i: nat)
    requires i <= |xs| && forall j | 0 <= j < i :: ValidateUpdateMetric(xs[j]) == OK
    ensures FirstInvalid(xs) == FirstInvalid(xs[i..])
  {
    if i > 0 {
      FirstInvalidAfter(xs[1..], i - 1);
      assert xs[1..][i - 1..] == xs[i..];
    }
  }

  lemma {:induction false} ValidatedIff(xs: seq<Metric>)
    ensures FirstInvalid(xs) == 200 <==> AllValid(xs)
  {
    if xs != [] {
      ValidatedIff(xs[1..]);
      assert xs == [xs[0]] + xs[1..] && xs[0] in xs;
    }
  }

  /** The answer to an invalid batch tells what is wrong with its first invalid metric: no name, or not the value that
      its type calls for. */
  lemma {:induction false} FirstInvalidAt(xs: seq<Metric>, i: nat)
    requires i < |xs| && !Valid(xs[i]) && forall j | 0 <= j < i :: Valid(xs[j])
    ensures FirstInvalid(xs) == if xs[i].id == "" then 404 else 400
  {
    if i > 0 {
      FirstInvalidAt(xs[1..], i - 1);
    }
  }

  /** Both routes let the same batches through, and those alone that the protocol accepts, and a batch does the same
      to the store whichever route it takes. */
  lemma RoutesAgree(xs: seq<Metric>, m: Maps)
    requires FiniteValues(xs)
    ensures FirstInvalid(xs) == OK <==> EncodeAll(xs).Some? && DecodeAll(Sent(EncodeAll(xs).value)).Some?
    ensures xs != [] ==> (FirstInvalid(xs) == OK <==> Acceptable(xs))
    ensures FirstInvalid(xs) == OK ==> ApplyAll(m, DecodeAll(Sent(EncodeAll(xs).value)).value) == ApplyAll(m, xs)
  {
    ValidatedIff(xs);
    EncodeFails(xs);
    if EncodeAll(xs).Some? {
      WireRoundTrip(xs);
      CanonApplies(m, xs);
    }
  }

  // ---------------------------------------------------------------- keys and names

  /** The header or metadata values to an idempotency key; None is an invalid request. */
  function KeyFrom(values: seq<string>): Option<string> {
    if values == [] then Some("") else if |values| == 1 && IsKey(values[0]) then Some(values[0]) else None
  }

  function Names(xs: seq<Metric>): (names: seq<string>)
    ensures |names| == |xs| && forall i | 0 <= i < |xs| :: names[i] == xs[i].id
  {
    if xs == [] then [] else Names(xs[..|xs| - 1]) + [xs[|xs| - 1].id]
  }

  // ---------------------------------------------------------------- the gRPC client

  datatype Outgoing = Nothing | Refused | Request(key: string, items: seq<Item>)

  /** rpc says whether a call succeeds. An empty batch is not sent, and one that cannot be encoded is not sent in part; only
      for an empty batch and a call that succeeded is there no error. */
  method SendBatch(batch: Batch, rpc: Outgoing -> bool) returns (out: Outgoing, ok: bool)
    ensures ok <==> out == Nothing || (out.Request? && rpc(out))
    ensures out == Nothing <==> batch.metrics == []
    ensures batch.metrics != [] && IsKey(batch.id) && EncodeAll(batch.metrics).Some? ==>
      out == Request(batch.id, EncodeAll(batch.metrics).value)
    ensures out == Refused <==> batch.metrics != [] && (!IsKey(batch.id) || EncodeAll(batch.metrics).None?)
  {
    var xs := batch.metrics;
    if xs == [] {
      return Nothing, true;
    }
    var valid := ValidKey(batch.id);
    if !valid {
      return Refused, false;
    }
    var items := [];
    var i := 0;
    while i < |xs|
      invariant 0 <= i <= |xs| && EncodeAll(xs[..i]) == Some(items)
    {
      assert xs[..i + 1][..i] == xs[..i];
      var item := Encode(xs[i]);
      if item.None? {
        EncodeFails(xs);
        assert !Effective(xs[i]) && xs[i] in xs;
        return Refused, false;
      }
      items := items + [item.value];
      i := i + 1;
    }
    assert xs[..i] == xs;
    out := Request(batch.id, items);
    return out, rpc(out);
  }

  // ---------------------------------------------------------------- the gRPC server

  datatype Code = Fine | InvalidArgument | Canceled | AlreadyExists | Internal

  lemma {:induction false} DecodeFails(items: seq<Option<Item>>, i: nat)
    requires i < |items| && Decode(items[i]).None?
    ensures DecodeAll(items).None?
  {
    if i < |items| - 1 {
      DecodeFails(items[..|items| - 1], i);
    }
  }

  method DecodeItems(items: seq<Option<Item>>) returns (metrics: Option<seq<Metric>>, names: seq<string>)
    ensures metrics == DecodeAll(items) && (metrics.Some? ==> names == Names(metrics.value))
  {
    var xs: seq<Metric> := [];
    names := [];
    var i := 0;
    while i < |items|
      invariant 0 <= i <= |items| && DecodeAll(items[..i]) == Some(xs) && names == Names(xs)
    {
      assert items[..i + 1][..i] == items[..i];
      var x := Decode(items[i]);
      if x.None? {
        DecodeFails(items, i);
        return None, [];
      }
      assert (xs + [x.value])[..|xs|] == xs;
      xs, names := xs + [x.value], names + [x.value.id];
      i := i + 1;
    }
    assert items[..i] == items;
    return Some(xs), names;
  }

  /** What came in after validation: a key and a batch. */
  datatype Incoming = Rejected | Batched(key: string, metrics: seq<Metric>)

  function FromGrpc(request: Option<seq<Option<Item>>>, keys: seq<string>): Incoming {
    if request.None? || KeyFrom(keys).None? || DecodeAll(request.value).None? then Rejected
    else Batched(KeyFrom(keys).value, DecodeAll(request.value).value)
  }

  function FromHttp(body: Option<seq<Metric>>, keys: seq<string>): Incoming {
    if body.None? || FirstInvalid(body.value) != OK || KeyFrom(keys).None? then Rejected
    else Batched(KeyFrom(keys).value, body.value)
  }

  /** Memory after a request: a rejected one changes nothing. */
  function ImageAfter(img: Image, incoming: Incoming, fingerprint: seq<Metric> -> string): Image {
    if incoming.Rejected? then img else Stored(img, incoming.key, fingerprint, incoming.metrics)
  }

  function VerdictFor(img: Image, incoming: Incoming, fingerprint: seq<Metric> -> string): Verdict
    requires incoming.Batched?
  {
    if incoming.metrics == [] then Duplicate else Step(img, incoming.key, fingerprint, incoming.metrics).1
  }

  /** What a batch under a key does, told from the receipts: a new key is stored with the batch, a known one changes nothing
      and is a conflict under another fingerprint. */
  predicate ActsOnce(img: Image, after: Image, key: string, fingerprint: string, xs: seq<Metric>, conflict: bool, audit: bool) {
    if key in img.receipts then
      after == img && (conflict <==> img.receipts[key] != fingerprint) && !audit
    else after == Image(ApplyAll(img.maps, xs), img.receipts[key := fingerprint]) && !conflict
  }

  lemma KeyActsOnce(img: Image, key: string, fingerprint: seq<Metric> -> string, xs: seq<Metric>)
    requires IsKey(key) && xs != [] && FiniteValues(xs)
    ensures var (after, verdict) := (ImageAfter(img, Batched(key, xs), fingerprint), VerdictFor(img, Batched(key, xs), fingerprint));
      ActsOnce(img, after, key, fingerprint(xs), xs, verdict == Conflict, verdict == Applied)
  {
  }

  /** The save that an update must wait for has failed. */
  ghost predicate SaveMissing(service: MetricsService, fault: bool)
    reads service.repo
  {
    service.saveOnUpdate && (fault || !AllFinite(service.repo.View().maps))
  }

  /** The request holds metrics, and they can be decoded. */
  predicate Decoded(request: Option<seq<Option<Item>>>) {
    request.Some? && request.value != [] && DecodeAll(request.value).Some?
  }

  class MetricsServer {
    const service: MetricsService
    var audits: seq<seq<string>>

    constructor (service: MetricsService)
      ensures this.service == service && audits == []
    {
      this.service, audits := service, [];
    }

    /** live says that the request context has not expired. Anything but a batch that is new, valid and saved leaves no
        audit event, and an invalid or conflicting request leaves no trace at all. */
    method UpdateMetrics(request: Option<seq<Option<Item>>>, keys: seq<string>, live: bool, fault: bool) returns (code: Code)
      requires service.Valid()
      modifies this`audits, service.repo, service.persistence.disk
      ensures var incoming, before := FromGrpc(request, keys), old(service.repo.View());
        && (code == InvalidArgument <==> incoming.Rejected?)
        && (code == Canceled <==> incoming.Batched? && incoming.metrics != [] && !live)
        && service.repo.View() == (if code == Canceled then before else ImageAfter(before, incoming, service.fingerprint))
        && (code == AlreadyExists <==>
              incoming.Batched? && code != Canceled && VerdictFor(before, incoming, service.fingerprint) == Conflict)
        && (code == Internal ==> SaveMissing(service, fault))
        && (code == Fine && incoming.metrics != [] ==> !SaveMissing(service, fault))
        && audits == old(audits) +
             (if code == Fine && VerdictFor(before, incoming, service.fingerprint) == Applied
              then [Names(incoming.metrics)] else [])
      ensures Decoded(request) && live && |keys| == 1 && IsKey(keys[0]) ==>
        var xs := DecodeAll(request.value).value;
        ActsOnce(old(service.repo.View()), service.repo.View(), keys[0], service.fingerprint(xs), xs,
                 code == AlreadyExists, audits != old(audits))
      ensures Decoded(request) && live && |keys| == 0 ==>
        service.repo.View() ==
          old(service.repo.View()).(maps := ApplyAll(old(service.repo.View()).maps, DecodeAll(request.value).value))
      ensures Decoded(request) && code == Fine && (|keys| == 0 || keys[0] !in old(service.repo.receipts)) ==>
        audits == old(audits) + [Names(DecodeAll(request.value).value)]
      ensures code == Fine && service.saveOnUpdate && FromGrpc(request, keys).metrics != [] ==> service.FileIsCurrent()
      ensures code != Fine ==> service.persistence.disk.content == old(service.persistence.disk.content)
    {
      if request.None? {
        return InvalidArgument;
      }
      var key := "";
      if |keys| > 0 {
        if |keys| != 1 {
          return InvalidArgument;
        }
        var valid := ValidKey(keys[0]);
        if !valid {
          return InvalidArgument;
        }
        key := keys[0];
      }
      var metrics, names := DecodeItems(request.value);
      if metrics.None? {
        return InvalidArgument;
      }
      if metrics.value == [] {
        return Fine;
      }
      DecodedAcceptable(request.value);
      if !live {
        return Canceled;
      }
      assert FromGrpc(request, keys) == Batched(key, metrics.value) && Admitted(key, metrics.value);
      code := Store(key, metrics.value, names, fault);
    }

    /** The service's answer as a status, and the audit event. */
    method Store(key: string, metrics: seq<Metric>, names: seq<string>, fault: bool) returns (code: Code)
      requires service.Valid() && Admitted(key, metrics)
      modifies this`audits, service.repo, service.persistence.disk
      ensures var before, verdict := old(service.repo.View()), old(Step(service.repo.View(), key, service.fingerprint, metrics).1);
        && service.repo.View() == Stored(before, key, service.fingerprint, metrics)
        && (code == AlreadyExists <==> verdict == Conflict)
        && (code == Internal ==> SaveMissing(service, fault)) && (code == Fine ==> !SaveMissing(service, fault))
        && audits == old(audits) + (if code == Fine && verdict == Applied then [names] else [])
      ensures key != "" ==>
        ActsOnce(old(service.repo.View()), service.repo.View(), key, service.fingerprint(metrics), metrics,
                 code == AlreadyExists, audits != old(audits))
      ensures code == Fine || code == AlreadyExists || code == Internal
      ensures code == Fine && service.saveOnUpdate ==> service.FileIsCurrent()
      ensures code != Fine ==> service.persistence.disk.content == old(service.persistence.disk.content)
    {
      if key != "" {
        KeyActsOnce(service.repo.View(), key, service.fingerprint, metrics);
      }
      var applied, err := service.UpdateMetricsOnce(key, metrics, fault);
      if err == ConflictingKey {
        return AlreadyExists;
      }
      if err != Nil {
        return Internal;
      }
      if applied {
        audits := audits + [names];
      }
      return Fine;
    }
  }

  // ---------------------------------------------------------------- the HTTP handler

  class MetricsHandler {
    const service: MetricsService
    var audits: seq<seq<string>>

    constructor (service: MetricsService)
      ensures this.service == service && audits == []
    {
      this.service, audits := service, [];
    }

    /** body is None when it is not the JSON of a batch; JSON has no number that is not finite. */
    method UpdateMetricsJSON(body: Option<seq<Metric>>, keys: seq<string>, fault: bool) returns (status: nat)
      requires service.Valid() && (body.Some? ==> FiniteValues(body.value))
      modifies this`audits, service.repo, service.persistence.disk
      ensures var incoming, before := FromHttp(body, keys), old(service.repo.View());
        && (status == BAD_REQUEST || status == NOT_FOUND <==> incoming.Rejected?)
        && (body.Some? && FirstInvalid(body.value) != OK ==> status == FirstInvalid(body.value))
        && service.repo.View() == ImageAfter(before, incoming, service.fingerprint)
        && (status == CONFLICT <==> incoming.Batched? && VerdictFor(before, incoming, service.fingerprint) == Conflict)
        && (status == SERVER_ERROR ==> SaveMissing(service, fault))
        && (status == OK && incoming.metrics != [] ==> !SaveMissing(service, fault))
        && audits == old(audits) +
             (if status == OK && VerdictFor(before, incoming, service.fingerprint) == Applied
              then [Names(incoming.metrics)] else [])
      ensures status == 200 ==> body.Some? && AllValid(body.value)
      ensures body.Some? && AllValid(body.value) && |keys| == 1 && IsKey(keys[0]) && body.value != [] ==>
        ActsOnce(old(service.repo.View()), service.repo.View(), keys[0], service.fingerprint(body.value), body.value,
                 status == 409, audits != old(audits))
      ensures body.Some? && AllValid(body.value) && |keys| == 0 ==>
        service.repo.View() == old(service.repo.View()).(maps := ApplyAll(old(service.repo.View()).maps, body.value))
      ensures status == 200 && body.value != [] && (|keys| == 0 || keys[0] !in old(service.repo.receipts)) ==>
        audits == old(audits) + [Names(body.value)]
      ensures status == OK && service.saveOnUpdate && FromHttp(body, keys).metrics != [] ==> service.FileIsCurrent()
      ensures status != OK ==> service.persistence.disk.content == old(service.persistence.disk.content)
      ensures status in {200, 400, 404, 409, 500}
    {
      if body.None? {
        return BAD_REQUEST;
      }
      var metrics := body.value;
      ValidatedIff(metrics);
      var i := 0;
      while i < |metrics|
        invariant 0 <= i <= |metrics|
        invariant forall j | 0 <= j < i :: ValidateUpdateMetric(metrics[j]) == OK
      {
        if ValidateUpdateMetric(metrics[i]) != OK {
          FirstInvalidAfter(metrics, i);
          return ValidateUpdateMetric(metrics[i]);
        }
        i := i + 1;
      }
      FirstInvalidAfter(metrics, i);
      status := StoreBatch(metrics, keys, fault);
    }

    method StoreBatch(metrics: seq<Metric>, keys: seq<string>, fault: bool) returns (status: nat)
      requires service.Valid() && FirstInvalid(metrics) == OK && FiniteValues(metrics)
      modifies this`audits, service.repo, service.persistence.disk
      ensures var incoming, before := FromHttp(Some(metrics), keys), old(service.repo.View());
        && (status == BAD_REQUEST <==> incoming.Rejected?)
        && service.repo.View() == ImageAfter(before, incoming, service.fingerprint)
        && (status == CONFLICT <==> incoming.Batched? && VerdictFor(before, incoming, service.fingerprint) == Conflict)
        && (status == SERVER_ERROR ==> SaveMissing(service, fault))
        && (status == OK && incoming.metrics != [] ==> !SaveMissing(service, fault))
        && audits == old(audits) +
             (if status == OK && VerdictFor(before, incoming, service.fingerprint) == Applied
              then [Names(incoming.metrics)] else [])
      ensures |keys| > 1 || (|keys| == 1 && !IsKey(keys[0])) <==> status == 400
      ensures |keys| == 1 && IsKey(keys[0]) && metrics != [] ==>
        ActsOnce(old(service.repo.View()), service.repo.View(), keys[0], service.fingerprint(metrics), metrics,
                 status == 409, audits != old(audits))
      ensures |keys| == 0 ==> service.repo.View() == old(service.repo.View()).(maps := ApplyAll(old(service.repo.View()).maps, metrics))
      ensures status == 200 && metrics != [] && (|keys| == 0 || keys[0] !in old(service.repo.receipts)) ==>
        audits == old(audits) + [Names(metrics)]
      ensures status == OK && service.saveOnUpdate && metrics != [] ==> service.FileIsCurrent()
      ensures status != OK ==> service.persistence.disk.content == old(service.persistence.disk.content)
      ensures status in {200, 400, 409, 500}
    {
      var key := "";
      if |keys| > 0 {
        if |keys| != 1 {
          return BAD_REQUEST;
        }
        var valid := ValidKey(keys[0]);
        if !valid {
          return BAD_REQUEST;
        }
        key := keys[0];
      }
      assert FromHttp(Some(metrics), keys) == Batched(key, metrics);
      if key != "" && metrics != [] {
        KeyActsOnce(service.repo.View(), key, service.fingerprint, metrics);
      }
      var applied, err := service.UpdateMetricsOnce(key, metrics, fault);
      if err == ConflictingKey {
        return CONFLICT;
      }
      if err != Nil {
        return SERVER_ERROR;
      }
      if applied {
        var names := MetricNames(metrics);
        audits := audits + [names];
      }
      return OK;
    }

    static method MetricNames(metrics: seq<Metric>) returns (names: seq<string>)
      ensures names == Names(metrics)
      ensures |names| == |metrics| && forall i | 0 <= i < |metrics| :: names[i] == metrics[i].id
    {
      names := [];
      var i := 0;
      while i < |metrics|
        invariant 0 <= i <= |metrics| && names == Names(metrics[..i])
      {
        assert metrics[..i + 1][..i] == metrics[..i];
        names := names + [metrics[i].id];
        i := i + 1;
      }
      assert metrics[..i] == metrics;
    }
  }

  // ---------------------------------------------------------------- the same key again

  /** After a first request under a key, the same request again changes nothing and is no conflict, and another batch under
      that key is one and changes nothing either; whatever becomes of the saves. */
  method PostAgain(handler: MetricsHandler, key: string, body: seq<Metric>, other: seq<Metric>, faults: nat -> bool)
      returns (first: nat, second: nat, third: nat, ghost after: Image, ghost audited: seq<seq<string>>)
    requires handler.service.Valid() && IsKey(key) && Acceptable(body) && Acceptable(other)
    requires FiniteValues(body) && FiniteValues(other)
    requires handler.service.fingerprint(other) != handler.service.fingerprint(body)
    modifies handler`audits, handler.service.repo, handler.service.persistence.disk
    ensures key !in old(handler.service.repo.receipts) ==>
      after.receipts == old(handler.service.repo.receipts)[key := handler.service.fingerprint(body)]
      && after.maps == ApplyAll(old(handler.service.repo.View()).maps, body)
    ensures first != 409 ==>
      second != 409 && third == 409 && handler.service.repo.View() == after && handler.audits == audited
  {
    first := handler.UpdateMetricsJSON(Some(body), [key], faults(0));
    after, audited := handler.service.repo.View(), handler.audits;
    second := handler.UpdateMetricsJSON(Some(body), [key], faults(1));
    third := handler.UpdateMetricsJSON(Some(other), [key], faults(2));
  }

  /** The gRPC server likewise. */
  method CallAgain(server: MetricsServer, key: string, items: seq<Option<Item>>, other: seq<Option<Item>>, faults: nat -> bool)
      returns (first: Code, second: Code, third: Code, ghost after: Image, ghost audited: seq<seq<string>>)
    requires server.service.Valid() && IsKey(key) && Decoded(Some(items)) && Decoded(Some(other))
    requires server.service.fingerprint(DecodeAll(other).value) != server.service.fingerprint(DecodeAll(items).value)
    modifies server`audits, server.service.repo, server.service.persistence.disk
    ensures key !in old(server.service.repo.receipts) ==>
      after.receipts == old(server.service.repo.receipts)[key := server.service.fingerprint(DecodeAll(items).value)]
      && after.maps == ApplyAll(old(server.service.repo.View()).maps, DecodeAll(items).value)
    ensures first != AlreadyExists ==>
      second != AlreadyExists && third == AlreadyExists && server.service.repo.View() == after && server.audits == audited
  {
    first := server.UpdateMetrics(Some(items), [key], true, faults(0));
    after, audited := server.service.repo.View(), server.audits;
    second := server.UpdateMetrics(Some(items), [key], true, faults(1));
    third := server.UpdateMetrics(Some(other), [key], true, faults(2));
  }
}
