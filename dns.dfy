/**
 * Service discovery through DNS SRV records (app/utils/dns.py).
 *
 * A `Service` is built from one DNS response: the A records of the additional
 * section give a name-to-address map, the records of the first answer RRset
 * that carry the numerically largest priority become the endpoints, and an
 * endless stream of weighted random picks hands those endpoints out.
 */
module Dns {
  import opened Results

  /** TYPE value of a host address (A) record, section 3.2.2 of RFC 1035. */
  const TypeA: nat := 1

  /** One RRset of the additional section: its owner name as text (absolute,
      so normally with a trailing dot), its type, and the address of each of
      its rdatas in order. */
  datatype AdditionalRRset = AdditionalRRset(name: string, rdtype: nat, addresses: seq<string>)

  /** One SRV rdata of the answer section (section 2 of RFC 2782). */
  datatype SrvRecord = SrvRecord(priority: nat, weight: nat, port: nat, target: string)

  /** The parts of a DNS message (section 4.1 of RFC 1035) the parser reads:
      the answer RRsets and the additional RRsets. */
  datatype Response = Response(answer: seq<seq<SrvRecord>>, additional: seq<AdditionalRRset>)

  /** An endpoint: an address and the decimal text of a port. */
  datatype Entry = Entry(ip: string, port: string)

  /** Why building a Service from a response raises. */
  datatype ParseError =
    | EmptyAddressRRset(name: string)  // `x[0]` on an A RRset without rdata (IndexError)
    | NoAnswer                         // `answer[0]` on an empty answer section (IndexError)
    | EmptyAnswerRRset                 // `max` of no priorities (ValueError)
    | MissingAddress(name: string)     // a kept target with no A record (KeyError)

  /** The two parallel lists the parser fills. */
  datatype Parsed = Parsed(srv: seq<Entry>, weights: seq<nat>)

  // ---------------------------------------------------------------------------
  // Names: `to_text().strip(".")`
  // ---------------------------------------------------------------------------

  predicate AllDots(s: string) {
    forall k :: 0 <= k < |s| ==> s[k] == '.'
  }

  /** Drops every leading '.'. */
  function StripLeadingDots(s: string): (r: string)
    ensures |r| <= |s|
    ensures r == [] || r[0] != '.'
  {
    if |s| > 0 && s[0] == '.' then StripLeadingDots(s[1..]) else s
  }

  /** Drops every trailing '.'. */
  function StripTrailingDots(s: string): (r: string)
    ensures r <= s
    ensures r == [] || r[|r| - 1] != '.'
  {
    if |s| > 0 && s[|s| - 1] == '.' then StripTrailingDots(s[..|s| - 1]) else s
  }

  /** Python's `name.strip(".")`: the result neither starts nor ends with a dot. */
  function Normalize(s: string): (r: string)
    ensures r == [] || (r[0] != '.' && r[|r| - 1] != '.')
  {
    StripTrailingDots(StripLeadingDots(s))
  }

  lemma {:induction false} StripLeadingDotsShape(s: string)
    ensures var r := StripLeadingDots(s); r == s[|s| - |r|..] && AllDots(s[..|s| - |r|])
  {
    if |s| > 0 && s[0] == '.' {
      StripLeadingDotsShape(s[1..]);
      var r := StripLeadingDots(s);
      assert s[..|s| - |r|] == [s[0]] + s[1..][..|s| - 1 - |r|];
    }
  }

  lemma {:induction false} StripTrailingDotsShape(s: string)
    ensures var r := StripTrailingDots(s); AllDots(s[|r|..])
  {
    if |s| > 0 && s[|s| - 1] == '.' {
      StripTrailingDotsShape(s[..|s| - 1]);
      var r := StripTrailingDots(s);
      assert s[|r|..] == s[..|s| - 1][|r|..] + [s[|s| - 1]];
    }
  }

  /** `s` is its normalised form framed by dots on both sides: normalising
      removes dots and nothing else, and only at the two ends. */
  lemma NormalizeFramedByDots(s: string)
    ensures var r := Normalize(s);
      var i := |s| - |StripLeadingDots(s)|;
      && i + |r| <= |s|
      && r == s[i..i + |r|] && AllDots(s[..i]) && AllDots(s[i + |r|..])
  {
    var t := StripLeadingDots(s);
    var r := StripTrailingDots(t);
    StripLeadingDotsShape(s);
    StripTrailingDotsShape(t);
    var i := |s| - |t|;
    SuffixSlices(s, i, |r|);
    assert t == s[i..] && r == t[..|r|];
    assert t[|r|..] == s[i + |r|..];
  }

  lemma SuffixSlices(s: string, i: nat, n: nat)
    requires i + n <= |s|
    ensures s[i..][..n] == s[i..i + n] && s[i..][n..] == s[i + n..]
  {
  }

  // ---------------------------------------------------------------------------
  // Ports: `str(record.port)`
  // ---------------------------------------------------------------------------

  predicate IsDigit(c: char) {
    '0' <= c <= '9'
  }

  predicate IsDigits(s: string) {
    forall k :: 0 <= k < |s| ==> IsDigit(s[k])
  }

  function DigitChar(d: nat): (c: char)
    requires d < 10
    ensures IsDigit(c)
  {
    ('0' as int + d) as char
  }

  function DigitValue(c: char): (d: nat)
    requires IsDigit(c)
    ensures d < 10 && DigitChar(d) == c
  {
    c as int - '0' as int
  }

  /** Python's `str(n)` for a non-negative integer: decimal digits, no
      leading zero except for zero itself. */
  function DecimalString(n: nat): (s: string)
    ensures |s| >= 1 && IsDigits(s)
    ensures s[0] == '0' ==> n == 0
  {
    if n < 10 then [DigitChar(n)] else DecimalString(n / 10) + [DigitChar(n % 10)]
  }

  /** The number a string of decimal digits denotes. */
  function DecimalValue(s: string): nat
    requires IsDigits(s)
  {
    if s == [] then 0 else 10 * DecimalValue(s[..|s| - 1]) + DigitValue(s[|s| - 1])
  }

  /** The port text of an entry reads back as the record's port. */
  lemma {:induction false} DecimalRoundTrip(n: nat)
    ensures DecimalValue(DecimalString(n)) == n
  {
    var s := DecimalString(n);
    if n >= 10 {
      DecimalRoundTrip(n / 10);
      assert s[..|s| - 1] == DecimalString(n / 10);
    }
  }

  // ---------------------------------------------------------------------------
  // The name map built from the additional section
  // ---------------------------------------------------------------------------

  /** The `nodes` dict after the first loop over `additional`: each A RRset
      maps its normalised name to its first address, later RRsets overwrite
      earlier ones, and an A RRset without rdata raises. */
  function NameMap(additional: seq<AdditionalRRset>): Result<map<string, string>, ParseError>
  {
    if additional == [] then Ok(map[])
    else
      var prev := NameMap(additional[..|additional| - 1]);
      var x := additional[|additional| - 1];
      if prev.Err? || x.rdtype != TypeA then prev
      else if x.addresses == [] then Err(EmptyAddressRRset(x.name))
      else Ok(prev.value[Normalize(x.name) := x.addresses[0]])
  }

  /** The first error of the loop over `additional` ends it: nothing after
      it changes the outcome. */
  lemma {:induction false} NameMapErrorPersists(additional: seq<AdditionalRRset>, k: nat)
    requires k <= |additional|
    requires NameMap(additional[..k]).Err?
    ensures NameMap(additional) == NameMap(additional[..k])
    decreases |additional| - k
  {
    if k < |additional| {
      var n := |additional| - 1;
      assert additional[..n][..k] == additional[..k];
      NameMapErrorPersists(additional[..n], k);
    } else {
      assert additional[..k] == additional;
    }
  }

  ghost predicate IsARRset(additional: seq<AdditionalRRset>, i: int) {
    0 <= i < |additional| && additional[i].rdtype == TypeA
  }

  /** The name map fails exactly when some A RRset has no rdata. */
  lemma {:induction false} NameMapFails(additional: seq<AdditionalRRset>)
    ensures NameMap(additional).Err? <==>
      exists i :: IsARRset(additional, i) && additional[i].addresses == []
  {
    if additional != [] {
      var n := |additional| - 1;
      var pre := additional[..n];
      NameMapFails(pre);
      assert forall i :: IsARRset(pre, i) ==> IsARRset(additional, i) && pre[i] == additional[i];
      if exists i :: IsARRset(additional, i) && additional[i].addresses == [] {
        var i :| IsARRset(additional, i) && additional[i].addresses == [];
        if i < n {
          assert IsARRset(pre, i) && pre[i].addresses == [];
        }
      }
    }
  }

  /** The keys of the name map are the normalised names of the A RRsets. */
  lemma {:induction false} NameMapKeys(additional: seq<AdditionalRRset>)
    requires NameMap(additional).Ok?
    ensures forall k :: k in NameMap(additional).value <==>
      exists i :: IsARRset(additional, i) && Normalize(additional[i].name) == k
  {
    if additional != [] {
      var n := |additional| - 1;
      var pre := additional[..n];
      var x := additional[n];
      assert NameMap(pre).Ok?;
      NameMapKeys(pre);
      var m0 := NameMap(pre).value;
      var m := NameMap(additional).value;
      forall k ensures k in m <==> exists i :: IsARRset(additional, i) && Normalize(additional[i].name) == k {
        if x.rdtype == TypeA && k == Normalize(x.name) {
          assert IsARRset(additional, n);
        } else {
          assert k in m <==> k in m0;
          if k in m0 {
            var i :| IsARRset(pre, i) && Normalize(pre[i].name) == k;
            assert IsARRset(additional, i) && additional[i] == pre[i];
          }
          if exists i :: IsARRset(additional, i) && Normalize(additional[i].name) == k {
            var i :| IsARRset(additional, i) && Normalize(additional[i].name) == k;
            assert IsARRset(pre, i) && Normalize(pre[i].name) == k;
          }
        }
      }
    }
  }

  /** Each name maps to the first address of the LAST A RRset with that name. */
  lemma {:induction false} NameMapLastWins(additional: seq<AdditionalRRset>, i: nat)
    requires NameMap(additional).Ok?
    requires IsARRset(additional, i)
    requires forall j :: i < j && IsARRset(additional, j) ==>
      Normalize(additional[j].name) != Normalize(additional[i].name)
    ensures additional[i].addresses != []
    ensures Normalize(additional[i].name) in NameMap(additional).value
    ensures NameMap(additional).value[Normalize(additional[i].name)] == additional[i].addresses[0]
  {
    var n := |additional| - 1;
    var pre := additional[..n];
    if i < n {
      assert forall j :: IsARRset(pre, j) ==> IsARRset(additional, j) && pre[j] == additional[j];
      NameMapLastWins(pre, i);
    }
  }

  // ---------------------------------------------------------------------------
  // Priorities and the kept tier
  // ---------------------------------------------------------------------------

  /** Python's `max` over the priorities of an RRset: an upper bound of all
      of them that one of them attains. */
  function MaxPriority(rs: seq<SrvRecord>): (m: nat)
    requires |rs| > 0
    ensures forall i :: 0 <= i < |rs| ==> rs[i].priority <= m
    ensures exists i :: 0 <= i < |rs| && rs[i].priority == m
  {
    if |rs| == 1 then rs[0].priority
    else
      var m := MaxPriority(rs[..|rs| - 1]);
      assert forall i :: 0 <= i < |rs| - 1 ==> rs[..|rs| - 1][i] == rs[i];
      if rs[|rs| - 1].priority > m then rs[|rs| - 1].priority else m
  }

  /** The records of `rs` whose priority is `p`, in answer order. */
  function Kept(rs: seq<SrvRecord>, p: nat): seq<SrvRecord>
  {
    if rs == [] then []
    else Kept(rs[..|rs| - 1], p) + (if rs[|rs| - 1].priority == p then [rs[|rs| - 1]] else [])
  }

  /** The positions in `rs` of the records whose priority is `p`. */
  function KeptPositions(rs: seq<SrvRecord>, p: nat): seq<nat>
  {
    if rs == [] then []
    else KeptPositions(rs[..|rs| - 1], p) + (if rs[|rs| - 1].priority == p then [|rs| - 1] else [])
  }

  /** `Kept` keeps exactly the records at priority `p` and keeps them in answer
      order: its j-th element is the record at the j-th of the increasing
      positions, and a position is among them iff its record has priority p. */
  lemma {:induction false} KeptInAnswerOrder(rs: seq<SrvRecord>, p: nat)
    ensures |KeptPositions(rs, p)| == |Kept(rs, p)|
    ensures forall j :: 0 <= j < |Kept(rs, p)| ==>
      KeptPositions(rs, p)[j] < |rs| && rs[KeptPositions(rs, p)[j]] == Kept(rs, p)[j]
    ensures forall j, j' :: 0 <= j < j' < |KeptPositions(rs, p)| ==> KeptPositions(rs, p)[j] < KeptPositions(rs, p)[j']
    ensures forall i :: 0 <= i < |rs| ==> (i in KeptPositions(rs, p) <==> rs[i].priority == p)
  {
    if rs != [] {
      var n := |rs| - 1;
      KeptInAnswerOrder(rs[..n], p);
      assert forall i :: 0 <= i < n ==> rs[..n][i] == rs[i];
    }
  }

  /** A record is kept iff it occurs in the answer with priority `p`. */
  lemma {:induction false} KeptMembers(rs: seq<SrvRecord>, p: nat)
    ensures forall r :: r in Kept(rs, p) <==> r in rs && r.priority == p
  {
    if rs != [] {
      var n := |rs| - 1;
      KeptMembers(rs[..n], p);
      assert rs == rs[..n] + [rs[n]];
    }
  }

  // ---------------------------------------------------------------------------
  // Selecting the entries
  // ---------------------------------------------------------------------------

  function EntryFor(r: SrvRecord, nodes: map<string, string>): Entry
    requires Normalize(r.target) in nodes
  {
    Entry(nodes[Normalize(r.target)], DecimalString(r.port))
  }

  /** The `srv` and `weights` lists after the second loop over `rs`: each
      record at priority `p` appends its entry and its weight; the first such
      record whose target has no address raises. */
  function Select(rs: seq<SrvRecord>, p: nat, nodes: map<string, string>): Result<Parsed, ParseError>
  {
    if rs == [] then Ok(Parsed([], []))
    else SelectStep(Select(rs[..|rs| - 1], p, nodes), rs[|rs| - 1], p, nodes)
  }

  /** One turn of the second loop. */
  function SelectStep(prev: Result<Parsed, ParseError>, r: SrvRecord, p: nat, nodes: map<string, string>): Result<Parsed, ParseError>
  {
    if prev.Err? || r.priority != p then prev
    else if Normalize(r.target) !in nodes then Err(MissingAddress(Normalize(r.target)))
    else Ok(Parsed(prev.value.srv + [EntryFor(r, nodes)], prev.value.weights + [r.weight]))
  }

  lemma SelectSnoc(rs: seq<SrvRecord>, r: SrvRecord, p: nat, nodes: map<string, string>)
    ensures Select(rs + [r], p, nodes) == SelectStep(Select(rs, p, nodes), r, p, nodes)
  {
    assert (rs + [r])[..|rs|] == rs;
  }

  lemma {:induction false} SelectErrorPersists(rs: seq<SrvRecord>, p: nat, nodes: map<string, string>, k: nat)
    requires k <= |rs|
    requires Select(rs[..k], p, nodes).Err?
    ensures Select(rs, p, nodes) == Select(rs[..k], p, nodes)
    decreases |rs| - k
  {
    if k < |rs| {
      var n := |rs| - 1;
      assert rs[..n][..k] == rs[..k];
      SelectErrorPersists(rs[..n], p, nodes, k);
    } else {
      assert rs[..k] == rs;
    }
  }

  /** Selection succeeds iff every kept record's target has an address (the
      targets of other records are never looked up); on success `srv[j]` and
      `weights[j]` come from the j-th kept record, on failure the error names
      the target of a kept record that has no address. */
  lemma {:induction false} SelectFromKept(rs: seq<SrvRecord>, p: nat, nodes: map<string, string>)
    ensures Select(rs, p, nodes).Ok? <==> forall r :: r in Kept(rs, p) ==> Normalize(r.target) in nodes
    ensures Select(rs, p, nodes).Ok? ==>
      var q := Select(rs, p, nodes).value;
      var kept := Kept(rs, p);
      |q.srv| == |kept| && |q.weights| == |kept| &&
      forall j :: 0 <= j < |kept| ==>
        Normalize(kept[j].target) in nodes && q.srv[j] == EntryFor(kept[j], nodes) && q.weights[j] == kept[j].weight
    ensures Select(rs, p, nodes).Err? ==>
      Select(rs, p, nodes).error.MissingAddress? &&
      Select(rs, p, nodes).error.name !in nodes &&
      exists r :: r in Kept(rs, p) && Normalize(r.target) == Select(rs, p, nodes).error.name
  {
    if rs != [] {
      var n := |rs| - 1;
      var r := rs[n];
      SelectFromKept(rs[..n], p, nodes);
      var kept := Kept(rs, p);
      assert Kept(rs, p) == Kept(rs[..n], p) + (if r.priority == p then [r] else []);
      if r.priority == p && Select(rs[..n], p, nodes).Ok? && Normalize(r.target) !in nodes {
        assert r in kept;
      }
    }
  }

  /** Dropping every record below the top priority changes nothing: records
      of lower priority never influence the result. */
  lemma {:induction false} LowerTiersIgnored(rs: seq<SrvRecord>, p: nat, nodes: map<string, string>)
    ensures Select(Kept(rs, p), p, nodes) == Select(rs, p, nodes)
  {
    if rs != [] {
      var n := |rs| - 1;
      LowerTiersIgnored(rs[..n], p, nodes);
      var k := Kept(rs[..n], p);
      assert Kept(rs, p) == k + (if rs[n].priority == p then [rs[n]] else []);
      if rs[n].priority == p {
        SelectSnoc(k, rs[n], p, nodes);
      } else {
        assert k + [] == k;
      }
    }
  }

  // ---------------------------------------------------------------------------
  // Parsing a whole response
  // ---------------------------------------------------------------------------

  /** `Service._parse_response`: the name map, then the first answer RRset,
      its maximum priority, and the records at that priority. */
  function Parse(response: Response): Result<Parsed, ParseError>
  {
    var nodes :- NameMap(response.additional);
    if |response.answer| == 0 then Err(NoAnswer)
    else if |response.answer[0]| == 0 then Err(EmptyAnswerRRset)
    else Select(response.answer[0], MaxPriority(response.answer[0]), nodes)
  }

  /** Record `i` carries the numerically largest priority of `rs`. */
  ghost predicate IsTop(rs: seq<SrvRecord>, i: int)
    requires 0 <= i < |rs|
  {
    forall i' :: 0 <= i' < |rs| ==> rs[i'].priority <= rs[i].priority
  }

  /** Entry `e` with weight `w` is what record `i` of `rs` yields. */
  ghost predicate YieldedBy(rs: seq<SrvRecord>, nodes: map<string, string>, i: int, e: Entry, w: nat)
  {
    && 0 <= i < |rs| && IsTop(rs, i)
    && Normalize(rs[i].target) in nodes
    && e.ip == nodes[Normalize(rs[i].target)]
    && e.port == DecimalString(rs[i].port)
    && w == rs[i].weight
  }

  /** A successful parse yields at least one endpoint and as many weights as
      endpoints; each endpoint and its weight come from a record of the first
      answer RRset whose priority is the numerically LARGEST there (section 2
      of RFC 2782 prefers the smallest), its address is the one the name map
      gives the record's normalised target, and its port text is the decimal
      form of the record's port. */
  lemma ParsedTier(response: Response)
    requires Parse(response).Ok?
    ensures NameMap(response.additional).Ok? && |response.answer| > 0 && |response.answer[0]| > 0
    ensures |Parse(response).value.srv| == |Parse(response).value.weights| >= 1
    ensures forall e :: e in Parse(response).value.srv ==> IsDigits(e.port)
    ensures |KeptPositions(response.answer[0], MaxPriority(response.answer[0]))| == |Parse(response).value.srv|
    ensures forall j :: 0 <= j < |Parse(response).value.srv| ==>
      YieldedBy(response.answer[0], NameMap(response.additional).value,
                KeptPositions(response.answer[0], MaxPriority(response.answer[0]))[j],
                Parse(response).value.srv[j], Parse(response).value.weights[j])
  {
    var rs := response.answer[0];
    SelectedFromTop(rs, NameMap(response.additional).value, Parse(response).value);
    SelectedPortsAreDigits(rs, MaxPriority(rs), NameMap(response.additional).value, Parse(response).value);
  }

  /** Some record sits at the maximum priority. */
  lemma TopTierNonEmpty(rs: seq<SrvRecord>)
    requires |rs| > 0
    ensures |KeptPositions(rs, MaxPriority(rs))| >= 1
  {
    var p := MaxPriority(rs);
    KeptInAnswerOrder(rs, p);
    var i :| 0 <= i < |rs| && rs[i].priority == p;
    assert i in KeptPositions(rs, p);
  }

  lemma SelectedFromTop(rs: seq<SrvRecord>, nodes: map<string, string>, q: Parsed)
    requires |rs| > 0 && Select(rs, MaxPriority(rs), nodes) == Ok(q)
    ensures |q.srv| == |q.weights| >= 1
    ensures |KeptPositions(rs, MaxPriority(rs))| == |q.srv|
    ensures forall j :: 0 <= j < |q.srv| ==> YieldedBy(rs, nodes, KeptPositions(rs, MaxPriority(rs))[j], q.srv[j], q.weights[j])
  {
    var p := MaxPriority(rs);
    var kept := Kept(rs, p);
    var pos := KeptPositions(rs, p);
    SelectFromKept(rs, p, nodes);
    KeptInAnswerOrder(rs, p);
    TopTierNonEmpty(rs);
    forall j | 0 <= j < |q.srv|
      ensures YieldedBy(rs, nodes, pos[j], q.srv[j], q.weights[j])
    {
      assert rs[pos[j]] == kept[j];
      assert IsTop(rs, pos[j]);
    }
  }

  /** Every selected port text is made of decimal digits. */
  lemma SelectedPortsAreDigits(rs: seq<SrvRecord>, p: nat, nodes: map<string, string>, q: Parsed)
    requires Select(rs, p, nodes) == Ok(q)
    ensures forall e :: e in q.srv ==> IsDigits(e.port)
  {
    var kept := Kept(rs, p);
    SelectFromKept(rs, p, nodes);
    forall e | e in q.srv
      ensures IsDigits(e.port)
    {
      var j :| 0 <= j < |q.srv| && q.srv[j] == e;
      assert e == EntryFor(kept[j], nodes);
    }
  }

  /** Parsing fails exactly in the four ways the code raises. */
  lemma ParseFailures(response: Response)
    ensures Parse(response).Err? <==>
      || NameMap(response.additional).Err?
      || |response.answer| == 0
      || |response.answer[0]| == 0
      || exists r :: r in response.answer[0] && r.priority == MaxPriority(response.answer[0]) &&
           Normalize(r.target) !in NameMap(response.additional).value
  {
    if NameMap(response.additional).Ok? && |response.answer| > 0 && |response.answer[0]| > 0 {
      var rs := response.answer[0];
      SelectFromKept(rs, MaxPriority(rs), NameMap(response.additional).value);
      KeptMembers(rs, MaxPriority(rs));
    }
  }

  /** Method form of `_parse_response`: a loop fills the name map, a second
      loop appends to the two lists; it raises where `Parse` says. */
  method ParseResponse(response: Response) returns (r: Result<Parsed, ParseError>)
    ensures r == Parse(response)
  {
    var additional := response.additional;
    var nodes: map<string, string> := map[];
    var i := 0;
    while i < |additional|
      invariant 0 <= i <= |additional|
      invariant NameMap(additional[..i]) == Ok(nodes)
    {
      var x := additional[i];
      assert additional[..i + 1][..i] == additional[..i];
      if x.rdtype == TypeA {
        if |x.addresses| == 0 {
          NameMapErrorPersists(additional, i + 1);
          return Err(EmptyAddressRRset(x.name));
        }
        nodes := nodes[Normalize(x.name) := x.addresses[0]];
      }
      i := i + 1;
    }
    assert additional[..i] == additional;

    if |response.answer| == 0 {
      return Err(NoAnswer);
    }
    var rs := response.answer[0];
    if |rs| == 0 {
      return Err(EmptyAnswerRRset);
    }
    var p := MaxPriority(rs);
    var srv: seq<Entry> := [];
    var weights: seq<nat> := [];
    var j := 0;
    while j < |rs|
      invariant 0 <= j <= |rs|
      invariant Select(rs[..j], p, nodes) == Ok(Parsed(srv, weights))
    {
      var record := rs[j];
      assert rs[..j + 1][..j] == rs[..j];
      if record.priority == p {
        var name := Normalize(record.target);
        if name !in nodes {
          SelectErrorPersists(rs, p, nodes, j + 1);
          return Err(MissingAddress(name));
        }
        srv := srv + [Entry(nodes[name], DecimalString(record.port))];
        weights := weights + [record.weight];
      }
      j := j + 1;
    }
    assert rs[..j] == rs;
    r := Ok(Parsed(srv, weights));
  }

  // ---------------------------------------------------------------------------
  // Weighted picks
  // ---------------------------------------------------------------------------

  function TotalWeight(ws: seq<nat>): nat
  {
    if ws == [] then 0 else TotalWeight(ws[..|ws| - 1]) + ws[|ws| - 1]
  }

  /** A positive total weight means some entry can be picked. */
  lemma {:induction false} PositiveTotalHasPositiveWeight(ws: seq<nat>)
    requires TotalWeight(ws) > 0
    ensures exists k :: 0 <= k < |ws| && ws[k] > 0
  {
    var n := |ws| - 1;
    if ws[n] == 0 {
      PositiveTotalHasPositiveWeight(ws[..n]);
      var k :| 0 <= k < n && ws[..n][k] > 0;
      assert ws[k] > 0;
    }
  }

  /** The text `url` builds from an entry. */
  function Url(e: Entry): string
  {
    e.ip + ":" + e.port
  }

  /** Position of the last ':' in `s`, if any. */
  function LastColon(s: string): (r: Option<nat>)
    ensures r.Some? ==> r.value < |s| && s[r.value] == ':' && forall k :: r.value < k < |s| ==> s[k] != ':'
    ensures r.None? ==> forall k :: 0 <= k < |s| ==> s[k] != ':'
  {
    if s == [] then None
    else if s[|s| - 1] == ':' then Some(|s| - 1)
    else LastColon(s[..|s| - 1])
  }

  /** Splits `host:port` at its last colon. */
  function SplitHostPort(s: string): Option<Entry>
  {
    match LastColon(s)
    case None => None
    case Some(k) => Some(Entry(s[..k], s[k + 1..]))
  }

  /** A URL handed out by the stream determines the entry it came from, even
      when the address itself holds colons, because the port text is digits. */
  lemma UrlRoundTrip(e: Entry)
    requires IsDigits(e.port)
    ensures SplitHostPort(Url(e)) == Some(e)
  {
    var u := Url(e);
    var c := |e.ip|;
    assert u[c] == ':';
    assert forall k :: c < k < |u| ==> u[k] == e.port[k - c - 1];
    var k := LastColon(u).value;
    assert k == c;
    assert u[..c] == e.ip && u[c + 1..] == e.port;
  }

  // ---------------------------------------------------------------------------
  // The service and its endless stream of picks
  // ---------------------------------------------------------------------------

  class Service {
    const response: Response
    const srv: seq<Entry>
    const weights: seq<nat>
    /** Every endpoint the stream has produced so far, oldest first. */
    ghost var drawn: seq<Entry>

    ghost predicate Valid()
      reads this
    {
      && Parse(response) == Ok(Parsed(srv, weights))
      && |srv| == |weights| && |srv| >= 1
      && (forall e :: e in srv ==> IsDigits(e.port))
      && (forall k :: 0 <= k < |drawn| ==> drawn[k] in srv)
    }

    /** `Service.__init__` once `_parse_response` has returned. */
    constructor (response: Response, parsed: Parsed)
      requires Parse(response) == Ok(parsed)
      ensures Valid()
      ensures this.response == response && srv == parsed.srv && weights == parsed.weights
      ensures drawn == []
    {
      this.response := response;
      srv := parsed.srv;
      weights := parsed.weights;
      drawn := [];
      new;
      ParsedTier(response);
    }

    /** `_weighted_choice`: one entry of `srv`, and one whose weight is
        positive whenever the weights do not all vanish. */
    method WeightedChoice() returns (e: Entry)
      requires Valid()
      ensures exists k :: 0 <= k < |srv| && e == srv[k] && (TotalWeight(weights) > 0 ==> weights[k] > 0)
    {
      if TotalWeight(weights) > 0 {
        PositiveTotalHasPositiveWeight(weights);
      }
      var k :| 0 <= k < |srv| && (TotalWeight(weights) > 0 ==> weights[k] > 0);
      e := srv[k];
    }

    /** `next(self.response_generator)`: never exhausted; each call is one
        more pick, appended to the history. */
    method Next() returns (e: Entry)
      requires Valid()
      modifies this
      ensures Valid()
      ensures drawn == old(drawn) + [e]
    {
      e := WeightedChoice();
      drawn := drawn + [e];
    }

    /** `url`: address and port of ONE pick. */
    method GetUrl() returns (u: string)
      requires Valid()
      modifies this
      ensures Valid()
      ensures |drawn| == |old(drawn)| + 1 && drawn[..|old(drawn)|] == old(drawn)
      ensures u == Url(drawn[|drawn| - 1])
      ensures SplitHostPort(u) == Some(drawn[|drawn| - 1])
    {
      var e := Next();
      assert drawn[|drawn| - 1] == e;
      u := Url(e);
      UrlRoundTrip(e);
    }

    /** `ip`: the address of a pick of its own. */
    method GetIp() returns (ip: string)
      requires Valid()
      modifies this
      ensures Valid()
      ensures |drawn| == |old(drawn)| + 1 && drawn[..|old(drawn)|] == old(drawn)
      ensures ip == drawn[|drawn| - 1].ip
    {
      var e := Next();
      ip := e.ip;
    }

    /** `port`: the port of a pick of its own. */
    method GetPort() returns (port: string)
      requires Valid()
      modifies this
      ensures Valid()
      ensures |drawn| == |old(drawn)| + 1 && drawn[..|old(drawn)|] == old(drawn)
      ensures port == drawn[|drawn| - 1].port
    {
      var e := Next();
      port := e.port;
    }

    /** `entries()`: the endpoint list exactly as parsing produced it. */
    function Entries(): (es: seq<Entry>)
      reads this
      requires Valid()
      ensures Parse(response).Ok? && es == Parse(response).value.srv
    {
      srv
    }
  }

  /** `discover_service` once the resolver has answered: a fresh Service for
      the response, or the error that constructing it raises. */
  method DiscoverService(response: Response) returns (r: Result<Service, ParseError>)
    ensures r.Ok? <==> Parse(response).Ok?
    ensures r.Err? ==> r.error == Parse(response).error
    ensures r.Ok? ==> fresh(r.value) && r.value.Valid() && r.value.response == response && r.value.drawn == []
  {
    var parsed := ParseResponse(response);
    if parsed.Err? {
      return Err(parsed.error);
    }
    var s := new Service(response, parsed.value);
    return Ok(s);
  }

  // ---------------------------------------------------------------------------
  // The numerically highest priority wins
  // ---------------------------------------------------------------------------

  const ExampleResponse := Response(
    [[SrvRecord(10, 5, 22, "h1."), SrvRecord(10, 5, 22, "h2."), SrvRecord(20, 100, 22, "h3.")]],
    [AdditionalRRset("h1.", TypeA, ["10.0.0.1"]),
     AdditionalRRset("h2.", TypeA, ["10.0.0.2"]),
     AdditionalRRset("h3.", TypeA, ["10.0.0.3"])])

  const ExampleNodes := map["h1" := "10.0.0.1", "h2" := "10.0.0.2", "h3" := "10.0.0.3"]

  lemma ExampleNames()
    ensures Normalize("h1.") == "h1" && Normalize("h2.") == "h2" && Normalize("h3.") == "h3"
  {
    assert StripLeadingDots("h1.") == "h1.";
    assert StripLeadingDots("h2.") == "h2.";
    assert StripLeadingDots("h3.") == "h3.";
  }

  lemma ExampleNameMap()
    ensures NameMap(ExampleResponse.additional) == Ok(ExampleNodes)
  {
    var add := ExampleResponse.additional;
    ExampleNames();
    assert add[..1][..0] == [] && add[..2][..1] == add[..1] && add[..3][..2] == add[..2] && add[..3] == add;
    var m1 := map["h1" := "10.0.0.1"];
    var m2 := m1["h2" := "10.0.0.2"];
    assert NameMap(add[..1]) == Ok(m1);
    assert NameMap(add[..2]) == Ok(m2);
    assert m2["h3" := "10.0.0.3"] == ExampleNodes;
  }

  lemma ExampleMaxPriority()
    ensures MaxPriority(ExampleResponse.answer[0]) == 20
  {
    var rs := ExampleResponse.answer[0];
    assert rs[..2][..1] == rs[..1] && rs[..3][..2] == rs[..2] && rs[..3] == rs;
    assert MaxPriority(rs[..1]) == 10;
    assert MaxPriority(rs[..2]) == 10;
  }

  lemma ExampleSelect()
    ensures Select(ExampleResponse.answer[0], 20, ExampleNodes) == Ok(Parsed([Entry("10.0.0.3", "22")], [100]))
  {
    var nodes := ExampleNodes;
    var rs := ExampleResponse.answer[0];
    ExampleNames();
    assert rs[..1][..0] == [] && rs[..2][..1] == rs[..1] && rs[..3][..2] == rs[..2] && rs[..3] == rs;
    assert DecimalString(22) == "22";
    assert Select(rs[..1], 20, nodes) == Ok(Parsed([], []));
    assert Select(rs[..2], 20, nodes) == Ok(Parsed([], []));
    assert EntryFor(rs[2], nodes) == Entry("10.0.0.3", "22");
    assert Select(rs, 20, nodes) == SelectStep(Select(rs[..2], 20, nodes), rs[2], 20, nodes);
    var none: seq<Entry> := [];
    var noWeights: seq<nat> := [];
    assert none + [EntryFor(rs[2], nodes)] == [Entry("10.0.0.3", "22")];
    assert noWeights + [rs[2].weight] == [100];
  }

  /** Of h1 and h2 at priority 10 and h3 at priority 20, only h3 is kept,
      although section 2 of RFC 2782 would prefer h1 and h2. */
  lemma HighestPriorityValueKept()
    ensures Parse(ExampleResponse) == Ok(Parsed([Entry("10.0.0.3", "22")], [100]))
  {
    ExampleNameMap();
    ExampleMaxPriority();
    ExampleSelect();
  }
}
