/** LocalAlg, the client-side randomisation (tests/client_support.py,
    Figure 6 of the Blender paper): each record a client holds is mapped
    onto the head list (a query the list lacks becomes `*`, then a url its
    bucket lacks becomes `*`) and then reported truthfully or replaced by a
    random head-list pair or a random url of its own bucket.

    The calls of random() and choice() are oracle inputs: each record
    comes with the draws the client makes for it, and choice picks the
    element its index names, modulo the length of the list. */
module ClientSupport {
  import opened Wrappers
  import OD = OrderedDict
  import opened InMemoryStructures
  import opened Budget
  import opened HeadLists

  /** What one record consumes: the first and second random() and the
      indices the two choice() calls pick. */
  datatype Draws = Draws(first: real, second: real, query: nat, url: nat)

  /** A <query, url> record of the client's database with its draws. */
  datatype ClientRecord = ClientRecord(query: string, url: string, draws: Draws)

  /** numpy's choice over a list; an empty list raises. */
  function Choice(xs: seq<string>, i: nat): (r: Result<string>)
    ensures r.Err? <==> xs == []
    ensures r.Err? ==> r.error == EmptyChoice
    ensures r.Ok? ==> r.value in xs
  {
    if xs == [] then Err(EmptyChoice) else Ok(xs[i % |xs|])
  }

  /** A query the head list lacks is reported as `*`. */
  function MappedQuery(h: Table, q: string): (r: string)
    ensures r in h.items || r == "*"
    ensures q in h.items ==> r == q
  {
    if q in h.items then q else "*"
  }

  /** One step of the generator: the head list after its reads and the
      pair reported for the record <q, u> under the list's τ. */
  function Respond(h: Table, tau: real, q: string, u: string, d: Draws): (r: Result<(Table, (string, string))>)
    requires TableValid(h)
    ensures r.Ok? ==> TableValid(r.value.0)
    ensures r.Ok? ==> r.value.0 == Read(h, MappedQuery(h, q))
  {
    var q' := MappedQuery(h, q);
    var h' := Read(h, q');
    var b := MappingAt(h', q');
    var u' := if u in b.urls.items then u else "*";
    if d.first <= 1.0 - tau then
      // the list holds q', so this choice has something to pick
      var aq := h'.keys[d.query % |h'.keys|];
      var au :- Choice(MappingAt(h', aq).urls.keys, d.url);
      Ok((h', (aq, au)))
    else if d.second <= 1.0 - b.tau then
      var au :- Choice(b.urls.keys, d.url);
      Ok((h', (q', au)))
    else
      Ok((h', (q', u')))
  }

  /** The records from the i-th on, in input order. */
  function Walk(h: Table, tau: real, records: seq<ClientRecord>, i: nat): (r: Result<seq<(string, string)>>)
    requires TableValid(h)
    ensures r.Ok? ==> |r.value| == if i <= |records| then |records| - i else 0
    decreases |records| - i
  {
    if i >= |records| then Ok([])
    else
      var step :- Respond(h, tau, records[i].query, records[i].url, records[i].draws);
      var rest :- Walk(step.0, tau, records, i + 1);
      Ok([step.1] + rest)
  }

  /** local_alg: τ from the query part of the client budget and the head
      list's count of pairs, then one reported pair per record. */
  function LocalAlg(h: Table, count: int, c: Config, records: seq<ClientRecord>): (r: Result<seq<(string, string)>>)
    requires TableValid(h)
    ensures r.Ok? ==> |r.value| == |records|
    ensures ListTau(count, c).Err? ==> r == Err(ListTau(count, c).error)
    ensures r.Err? ==> r.error in {ZeroDivision, EmptyChoice}
  {
    var tau :- ListTau(count, c);
    assert Walk(h, tau, records, 0).Err? ==> Walk(h, tau, records, 0).error == EmptyChoice by {
      WalkFails(h, tau, records, 0);
    }
    Walk(h, tau, records, 0)
  }

  lemma {:induction false} WalkFails(h: Table, tau: real, records: seq<ClientRecord>, i: nat)
    requires TableValid(h)
    ensures Walk(h, tau, records, i).Err? ==> Walk(h, tau, records, i).error == EmptyChoice
    decreases |records| - i
  {
    if i < |records| {
      var s := Respond(h, tau, records[i].query, records[i].url, records[i].draws);
      if s.Ok? {
        WalkFails(s.value.0, tau, records, i + 1);
      }
    }
  }

  // ---------------------------------------------------------------------
  // The three ways a record is reported

  /** With the first draw at most 1 - τ the record is replaced by a
      head-list query and one of that query's urls; choosing the query
      never fails, choosing the url fails only on an empty bucket. */
  lemma RespondRandomPair(h: Table, tau: real, q: string, u: string, d: Draws)
    requires TableValid(h) && d.first <= 1.0 - tau
    ensures var r := Respond(h, tau, q, u, d);
      var h' := Read(h, MappedQuery(h, q));
      var aq := h'.keys[d.query % |h'.keys|];
      (r.Err? <==> MappingAt(h', aq).urls.keys == []) &&
      (r.Ok? ==> r.value.1.0 == aq && r.value.1.0 in h'.items && HasPair(h', r.value.1.0, r.value.1.1))
  {
    var h' := Read(h, MappedQuery(h, q));
    assert MappedQuery(h, q) in h'.keys;
    var aq := h'.keys[d.query % |h'.keys|];
    assert aq in h'.items;
  }

  /** Otherwise, with the second draw at most 1 - τ_q of the mapped query's
      bucket, the query is kept and its url is replaced by one of the
      bucket's urls. */
  lemma RespondRandomUrl(h: Table, tau: real, q: string, u: string, d: Draws)
    requires TableValid(h) && d.first > 1.0 - tau
    requires d.second <= 1.0 - MappingAt(h, MappedQuery(h, q)).tau
    ensures var r := Respond(h, tau, q, u, d);
      var b := MappingAt(h, MappedQuery(h, q));
      (r.Err? <==> b.urls.keys == []) &&
      (r.Ok? ==> r.value.1.0 == MappedQuery(h, q) && r.value.1.1 in b.urls.items)
  {
    assert OD.Valid(MappingAt(Read(h, MappedQuery(h, q)), MappedQuery(h, q)).urls);
  }

  /** Otherwise the mapped pair is reported: the query, or `*` when the
      list lacks it, and the url, or `*` when that query's bucket lacks it. */
  lemma RespondTruthful(h: Table, tau: real, q: string, u: string, d: Draws)
    requires TableValid(h) && d.first > 1.0 - tau
    requires d.second > 1.0 - MappingAt(h, MappedQuery(h, q)).tau
    ensures var r := Respond(h, tau, q, u, d);
      var q' := if q in h.items then q else "*";
      r.Ok? && r.value.1 == (q', if HasPair(h, q', u) then u else "*")
  {
  }

  // ---------------------------------------------------------------------
  // On a head list with its star values

  /** The head list holds `*` and every bucket, `*` included, holds a `*`
      url (what append_star_values leaves). */
  ghost predicate StarReady(h: Table) {
    "*" in h.items && forall q :: q in h.items ==> HasPair(h, q, "*")
  }

  /** What record `rec` reports on such a head list: the same three-way
      choice, with no read that inserts a bucket and no choice that can
      raise. The pair is always a pair of the list. */
  function Reported(h: Table, tau: real, rec: ClientRecord): (p: (string, string))
    requires TableValid(h) && StarReady(h)
    ensures HasPair(h, p.0, p.1)
  {
    var q := MappedQuery(h, rec.query);
    var b := h.items[q];
    if rec.draws.first <= 1.0 - tau then
      var aq := h.keys[rec.draws.query % |h.keys|];
      var urls := h.items[aq].urls.keys;
      assert aq in h.items && "*" in urls;
      (aq, urls[rec.draws.url % |urls|])
    else if rec.draws.second <= 1.0 - b.tau then
      assert "*" in b.urls.keys;
      (q, b.urls.keys[rec.draws.url % |b.urls.keys|])
    else
      (q, if rec.url in b.urls.items then rec.url else "*")
  }

  /** On such a head list a record never raises, the reads insert nothing,
      and the pair reported is the one Reported names. */
  lemma RespondInHeadList(h: Table, tau: real, rec: ClientRecord)
    requires TableValid(h) && StarReady(h)
    ensures Respond(h, tau, rec.query, rec.url, rec.draws) == Ok((h, Reported(h, tau, rec)))
  {
    var q' := MappedQuery(h, rec.query);
    assert q' in h.items;
    if rec.draws.first <= 1.0 - tau {
      RespondRandomPair(h, tau, rec.query, rec.url, rec.draws);
    } else if rec.draws.second <= 1.0 - MappingAt(h, q').tau {
      RespondRandomUrl(h, tau, rec.query, rec.url, rec.draws);
    } else {
      RespondTruthful(h, tau, rec.query, rec.url, rec.draws);
    }
  }

  /** The pairs the records from the i-th on report on such a head list,
      one per record and in input order. */
  ghost function Reports(h: Table, tau: real, records: seq<ClientRecord>, i: nat): (ps: seq<(string, string)>)
    requires TableValid(h) && StarReady(h) && i <= |records|
    ensures |ps| == |records| - i
    ensures forall k :: 0 <= k < |ps| ==> ps[k] == Reported(h, tau, records[i + k])
  {
    seq(|records| - i, k requires 0 <= k < |records| - i => Reported(h, tau, records[i + k]))
  }

  /** On such a head list the walk never raises and reports, record by
      record, what Reported names. */
  lemma {:induction false} WalkReports(h: Table, tau: real, records: seq<ClientRecord>, i: nat)
    requires TableValid(h) && StarReady(h) && i <= |records|
    ensures Walk(h, tau, records, i) == Ok(Reports(h, tau, records, i))
    decreases |records| - i
  {
    if i < |records| {
      RespondInHeadList(h, tau, records[i]);
      WalkCons(h, tau, records, i, Reported(h, tau, records[i]));
      WalkReports(h, tau, records, i + 1);
      ReportsCons(h, tau, records, i);
    }
  }

  /** A record that reports `p` without touching the head list puts `p`
      in front of what the later records report. */
  lemma WalkCons(h: Table, tau: real, records: seq<ClientRecord>, i: nat, p: (string, string))
    requires TableValid(h) && i < |records|
    requires Respond(h, tau, records[i].query, records[i].url, records[i].draws) == Ok((h, p))
    ensures Walk(h, tau, records, i) ==
      if Walk(h, tau, records, i + 1).Ok? then Ok([p] + Walk(h, tau, records, i + 1).value) else Walk(h, tau, records, i + 1)
  {
  }

  lemma ReportsCons(h: Table, tau: real, records: seq<ClientRecord>, i: nat)
    requires TableValid(h) && StarReady(h) && i < |records|
    ensures Reports(h, tau, records, i) == [Reported(h, tau, records[i])] + Reports(h, tau, records, i + 1)
  {
    var ps, rest := Reports(h, tau, records, i), Reports(h, tau, records, i + 1);
    forall k | 0 < k < |ps| ensures ps[k] == rest[k - 1] {
      assert records[i + k] == records[(i + 1) + (k - 1)];
    }
  }

  /** local_alg on a head list with its star values raises only when its τ
      does, and otherwise reports for record j the pair Reported names, a
      pair of the list. */
  lemma LocalAlgInHeadList(h: Table, count: int, c: Config, records: seq<ClientRecord>)
    requires TableValid(h) && StarReady(h)
    ensures var r := LocalAlg(h, count, c, records);
      (r.Ok? <==> ListTau(count, c).Ok?) &&
      (r.Ok? ==> r.value == Reports(h, ListTau(count, c).value, records, 0))
  {
    if ListTau(count, c).Ok? {
      WalkReports(h, ListTau(count, c).value, records, 0);
      LocalAlgWalks(h, count, c, records);
    }
  }

  lemma LocalAlgWalks(h: Table, count: int, c: Config, records: seq<ClientRecord>)
    requires TableValid(h) && ListTau(count, c).Ok?
    ensures LocalAlg(h, count, c, records) == Walk(h, ListTau(count, c).value, records, 0)
  {
  }
}
