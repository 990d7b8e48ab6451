/** The part of net/http the server writes through: a header multimap with
    Add/Set/Get, and a response that records the status line (with the
    header as it stood when the status was written) and the body outputs. */
module Http {
  import opened Results
  import opened Json

  /** http.Header without key canonicalisation. */
  type Headers = map<string, seq<string>>

  /** The values stored under k; none when k is absent. */
  function Values(h: Headers, k: string): seq<string> {
    if k in h then h[k] else []
  }

  /** Header.Get: the first value under k, or "" when there is none. */
  function Get(h: Headers, k: string): (v: string)
    ensures v != "" ==> k in h && |h[k]| > 0
  {
    if k in h && |h[k]| > 0 then h[k][0] else ""
  }

  /** The header after `Add(k, v)` for every k and every v of hs, in order. */
  function Merged(h: Headers, hs: Headers): (r: Headers)
    ensures forall k :: k in r <==> k in h || (k in hs && hs[k] != [])
  {
    map k | k in h.Keys + hs.Keys && (k in h || hs[k] != []) :: Values(h, k) + Values(hs, k)
  }

  /** A header map rendered as a JSON object of string arrays, as
      json.Marshal renders a `map[string][]string`. */
  function HeadersValue(h: Headers): Value {
    Obj(map k | k in h :: Arr(seq(|h[k]|, i requires 0 <= i < |h[k]| => Str(h[k][i]))))
  }

  /** The status line once written, with the header it was sent with. */
  datatype Head = Head(status: int, header: Headers)

  /** http.ErrBodyNotAllowed */
  const BodyNotAllowed := "http: request method or response status code does not allow body"

  /** Whether a body may follow the status line: not after a 1xx, 204 or
      304 status. With no status yet, a write goes out with 200. */
  predicate BodyAllowed(head: Option<Head>) {
    head.None? || !(100 <= head.value.status <= 199 || head.value.status == 204 || head.value.status == 304)
  }

  /** What goes onto the connection after the header. */
  datatype Output =
    | Envelope(value: Value, json: seq<byte>)           // json.Encoder.Encode: the JSON and "\n"
    | Event(eventType: string, data: Value, json: seq<byte>)  // one event-stream frame
    | EndMarker                                         // the terminal event-stream frame
    | PlainText(text: string)                           // http.Error's text body

  /** A response on one connection, as http.ResponseWriter exposes it. */
  class Response {
    /** Whether the connection implements http.Flusher. */
    const canFlush: bool
    var header: Headers
    var head: Option<Head>
    var body: seq<Output>

    constructor (canFlush: bool)
      ensures this.canFlush == canFlush && header == map[] && head == None && body == []
    {
      this.canFlush := canFlush;
      header := map[];
      head := None;
      body := [];
    }

    /** Header().Add(k, v): appends v to the values under k. */
    method Add(k: string, v: string)
      modifies this`header
      ensures header == old(header)[k := Values(old(header), k) + [v]]
    {
      header := header[k := Values(header, k) + [v]];
    }

    /** Header().Add(k, v) for every v of vs, in order. */
    method AddValues(k: string, vs: seq<string>)
      modifies this`header
      ensures header == if vs == [] then old(header) else old(header)[k := Values(old(header), k) + vs]
    {
      ghost var h0 := header;
      var j := 0;
      while j < |vs|
        invariant 0 <= j <= |vs|
        invariant header == if j == 0 then h0 else h0[k := Values(h0, k) + vs[..j]]
      {
        ghost var acc := Values(h0, k) + vs[..j];
        assert Values(header, k) == acc;
        Add(k, vs[j]);
        assert header == h0[k := acc + [vs[j]]];
        assert vs[..j + 1] == vs[..j] + [vs[j]];
        assert acc + [vs[j]] == Values(h0, k) + vs[..j + 1];
        j := j + 1;
      }
      assert vs[..j] == vs;
    }

    /** Header().Add(k, v) for every key k of hs and every value v under it. */
    method AddAll(hs: Headers)
      modifies this`header
      ensures header == Merged(old(header), hs)
    {
      ghost var done: Headers := map[];
      MergedNothing(header, done);
      var pending := hs.Keys;
      while pending != {}
        invariant pending <= hs.Keys && done.Keys == hs.Keys - pending
        invariant forall x | x in done :: done[x] == hs[x]
        invariant header == Merged(old(header), done)
        decreases pending
      {
        var k :| k in pending;
        MergedInsert(old(header), done, k, hs[k]);
        AddValues(k, hs[k]);
        done := done[k := hs[k]];
        pending := pending - {k};
      }
      assert done == hs;
    }

    /** Header().Set(k, v): replaces every value under k by v. */
    method Set(k: string, v: string)
      modifies this`header
      ensures header == old(header)[k := [v]]
    {
      header := header[k := [v]];
    }

    /** WriteHeader: only the first call takes effect. */
    method WriteHeader(status: int)
      modifies this`head
      ensures head == if old(head).None? then Some(Head(status, header)) else old(head)
    {
      if head.None? {
        head := Some(Head(status, header));
      }
    }

    /** Write: a body write before any WriteHeader implies status 200; a
        status that allows no body refuses the write. */
    method Write(o: Output) returns (err: Outcome)
      modifies this`head, this`body
      ensures head == if old(head).None? then Some(Head(200, header)) else old(head)
      ensures BodyAllowed(head) ==> err == Pass && body == old(body) + [o]
      ensures !BodyAllowed(head) ==> err == Fail(BodyNotAllowed) && body == old(body)
    {
      if head.None? {
        head := Some(Head(200, header));
      }
      if !BodyAllowed(head) {
        return Fail(BodyNotAllowed);
      }
      body := body + [o];
      return Pass;
    }
  }

  lemma MergedNothing(h: Headers, none: Headers)
    requires none == map[]
    ensures Merged(h, none) == h
  {
    assert forall x :: x in Merged(h, none) <==> x in h;
    forall x | x in h ensures Merged(h, none)[x] == h[x] {
      assert Values(none, x) == [];
    }
  }

  /** One more key merged in, with all of its values. */
  lemma MergedInsert(h: Headers, r: Headers, k: string, v: seq<string>)
    requires k !in r
    ensures var before := Merged(h, r);
      Merged(h, r[k := v]) == if v == [] then before else before[k := Values(before, k) + v]
  {
    var before := Merged(h, r);
    var after := Merged(h, r[k := v]);
    var expected := if v == [] then before else before[k := Values(before, k) + v];
    assert Values(before, k) == Values(h, k);
    forall x | x in after
      ensures x in expected && after[x] == expected[x]
    {
      if x != k {
        assert Values(r[k := v], x) == Values(r, x);
      }
    }
    forall x | x in expected
      ensures x in after
    {
    }
  }
}
