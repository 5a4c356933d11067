// Flow enumeration: the continuation token and the paging loop of enumerate_flows.
module FlowPaging {
  import opened Prelude
  import opened Octets

  const DEFAULT_LIMIT := 256
  const MAX_LIMIT := 10_000
  const TOKEN_LIFETIME := 60_000_000_000

  // ----- The continuation token -----

  datatype Key = Key(flowId: U64, generation: U32)

  datatype Cursor = Cursor(nonce: U64, issued: U64, key: Key)

  function Encode(c: Cursor): (r: seq<Byte>)
    ensures |r| == 32
  {
    Be(c.nonce, 8) + Be(c.issued, 8) + Be(c.key.flowId, 8) + Be(c.key.generation, 4) + [0, 0, 0, 0]
  }

  function Decode(b: seq<Byte>): Option<Cursor> {
    if |b| != 32 then None
    else
      Widths();
      BeOfBytes(b[0..8]);
      BeOfBytes(b[8..16]);
      BeOfBytes(b[16..24]);
      BeOfBytes(b[24..28]);
      Some(Cursor(FromBe(b[0..8]), FromBe(b[8..16]), Key(FromBe(b[16..24]), FromBe(b[24..28]))))
  }

  lemma EncodedParts(c: Cursor)
    ensures Encode(c)[0..8] == Be(c.nonce, 8) && Encode(c)[8..16] == Be(c.issued, 8)
    ensures Encode(c)[16..24] == Be(c.key.flowId, 8) && Encode(c)[24..28] == Be(c.key.generation, 4)
  {
  }

  lemma DecodeEncode(c: Cursor)
    ensures Decode(Encode(c)) == Some(c)
  {
    EncodedParts(c);
    Widths();
    BeRoundTrip(c.nonce, 8);
    BeRoundTrip(c.issued, 8);
    BeRoundTrip(c.key.flowId, 8);
    BeRoundTrip(c.key.generation, 4);
  }

  /** The four reserved bytes are not checked: a token decodes to c exactly when it agrees on the first 28. */
  lemma DecodesTo(b: seq<Byte>, c: Cursor)
    ensures Decode(b) == Some(c) <==> |b| == 32 && b[..28] == Encode(c)[..28]
  {
    EncodedParts(c);
    var e := Encode(c);
    assert e[..28] == e[0..8] + e[8..16] + e[16..24] + e[24..28];
    if |b| == 32 {
      assert b[..28] == b[0..8] + b[8..16] + b[16..24] + b[24..28];
      if Decode(b) == Some(c) {
        BeOfBytes(b[0..8]);
        BeOfBytes(b[8..16]);
        BeOfBytes(b[16..24]);
        BeOfBytes(b[24..28]);
      } else if b[..28] == e[..28] {
        assert b[0..8] == b[..28][0..8] && b[8..16] == b[..28][8..16];
        assert b[16..24] == b[..28][16..24] && b[24..28] == b[..28][24..28];
        assert e[0..8] == e[..28][0..8] && e[8..16] == e[..28][8..16];
        assert e[16..24] == e[..28][16..24] && e[24..28] == e[..28][24..28];
        DecodeEncode(c);
      }
    }
  }

  // ----- Order -----

  datatype Flow = Flow(key: Key, lastUsed: U64)

  predicate Less(a: Key, b: Key) {
    a.flowId < b.flowId || (a.flowId == b.flowId && a.generation < b.generation)
  }

  predicate Beyond(cursor: Option<Key>, k: Key) {
    cursor.Some? ==> Less(cursor.value, k)
  }

  predicate Increasing(s: seq<Flow>) {
    forall i, j :: 0 <= i < j < |s| ==> Less(s[i].key, s[j].key)
  }

  /** A listing of the state map holds every key once, in any order. */
  predicate Listing(s: seq<Flow>) {
    forall i, j :: 0 <= i < j < |s| ==> s[i].key != s[j].key
  }

  function Insert(f: Flow, s: seq<Flow>): seq<Flow> {
    if s == [] then [f] else if Less(f.key, s[0].key) then [f] + s else [s[0]] + Insert(f, s[1..])
  }

  /** sort_by_key. */
  function Sorted(s: seq<Flow>): seq<Flow> {
    if s == [] then [] else Insert(s[0], Sorted(s[1..]))
  }

  lemma {:induction false} InsertMembers(f: Flow, s: seq<Flow>)
    ensures |Insert(f, s)| == |s| + 1
    ensures forall x :: x in Insert(f, s) <==> x == f || x in s
  {
    if s != [] && !Less(f.key, s[0].key) {
      var tail := s[1..];
      InsertMembers(f, tail);
      assert s == [s[0]] + tail;
    }
  }

  lemma TailIncreasing(s: seq<Flow>)
    requires Increasing(s) && s != []
    ensures Increasing(s[1..]) && forall x :: x in s[1..] ==> Less(s[0].key, x.key)
  {
    var tail := s[1..];
    assert forall i :: 0 <= i < |tail| ==> tail[i] == s[i + 1];
  }

  lemma HeadIncreasing(f: Flow, s: seq<Flow>)
    requires Increasing(s) && forall x :: x in s ==> Less(f.key, x.key)
    ensures Increasing([f] + s)
  {
    var r := [f] + s;
    forall i, j | 0 <= i < j < |r| ensures Less(r[i].key, r[j].key) {
      assert r[j] == s[j - 1] && s[j - 1] in s;
      if i > 0 { assert r[i] == s[i - 1]; }
    }
  }

  lemma {:induction false} InsertIncreasing(f: Flow, s: seq<Flow>)
    requires Increasing(s) && forall x :: x in s ==> x.key != f.key
    ensures Increasing(Insert(f, s))
  {
    if s != [] {
      var tail := s[1..];
      TailIncreasing(s);
      if Less(f.key, s[0].key) {
        HeadIncreasing(f, s);
      } else {
        InsertIncreasing(f, tail);
        InsertMembers(f, tail);
        HeadIncreasing(s[0], Insert(f, tail));
      }
    }
  }

  lemma {:induction false} SortedIncreasing(s: seq<Flow>)
    requires Listing(s)
    ensures Increasing(Sorted(s)) && |Sorted(s)| == |s|
    ensures forall x :: x in Sorted(s) <==> x in s
  {
    if s != [] {
      SortedIncreasing(s[1..]);
      var rest := Sorted(s[1..]);
      InsertMembers(s[0], rest);
      InsertIncreasing(s[0], rest);
      assert s == [s[0]] + s[1..];
    }
  }

  /** What is left of a sorted listing behind the cursor. */
  function After(s: seq<Flow>, cursor: Option<Key>): seq<Flow> {
    if s == [] then []
    else if Beyond(cursor, s[0].key) then [s[0]] + After(s[1..], cursor)
    else After(s[1..], cursor)
  }

  lemma {:induction false} AfterMembers(s: seq<Flow>, cursor: Option<Key>)
    ensures forall x :: x in After(s, cursor) <==> x in s && Beyond(cursor, x.key)
    ensures Increasing(s) ==> Increasing(After(s, cursor))
  {
    if s != [] {
      AfterMembers(s[1..], cursor);
      assert s == [s[0]] + s[1..];
      if Increasing(s) {
        var rest := After(s[1..], cursor);
        forall j | 0 <= j < |rest| ensures Less(s[0].key, rest[j].key) {
          assert rest[j] in s[1..];
        }
      }
    }
  }

  // ----- One page -----

  datatype Reply = Page(flows: seq<Flow>, next: seq<Byte>) | LimitTooLarge | BadToken | StaleToken

  function Limit(requested: U32): nat {
    if requested == 0 then DEFAULT_LIMIT else requested
  }

  predicate TokenLive(c: Cursor, nonce: U64, now: U64) {
    c.nonce == nonce && c.issued <= now && now - c.issued <= TOKEN_LIFETIME
  }

  /** The first flows of what is left, with a token when more remain. */
  function PageOf(nonce: U64, rest: seq<Flow>, limit: nat, issued: U64): Reply
    requires limit > 0
  {
    if |rest| <= limit then Page(rest, [])
    else Page(rest[..limit], Encode(Cursor(nonce, issued, rest[limit - 1].key)))
  }

  function Serve(nonce: U64, listing: seq<Flow>, requested: U32, token: seq<Byte>, now: U64, observed: U64): Reply {
    if Limit(requested) > MAX_LIMIT then LimitTooLarge
    else if token == [] then PageOf(nonce, After(Sorted(listing), None), Limit(requested), observed)
    else
      match Decode(token)
      case None => BadToken
      case Some(c) =>
        if TokenLive(c, nonce, now) then PageOf(nonce, After(Sorted(listing), Some(c.key)), Limit(requested), c.issued)
        else StaleToken
  }

  /** One flow of the loop: skipped, or moved from what is left to the page. */
  lemma AfterNext(flows: seq<Flow>, i: nat, key: Option<Key>)
    requires i < |flows|
    ensures After(flows[i..], key)
         == if Beyond(key, flows[i].key) then [flows[i]] + After(flows[i + 1..], key) else After(flows[i + 1..], key)
  {
    assert flows[i..][0] == flows[i] && flows[i..][1..] == flows[i + 1..];
  }

  lemma FullPage(page: seq<Flow>, left: seq<Flow>, rest: seq<Flow>, limit: nat)
    requires page + left == rest && left != [] && |page| == limit > 0
    ensures |rest| > limit && rest[..limit] == page && rest[limit - 1] == page[limit - 1]
  {
  }

  /** enumerate_flows; the listing and both clock readings are what the backend and the host supply. */
  method EnumerateFlows(nonce: U64, listing: seq<Flow>, requested: U32, token: seq<Byte>, now: U64, observed: U64)
    returns (r: Reply)
    ensures r == Serve(nonce, listing, requested, token, now, observed)
  {
    var limit := Limit(requested);
    if limit > MAX_LIMIT { return LimitTooLarge; }
    var cursor: Option<Cursor> := None;
    if token != [] {
      cursor := Decode(token);
      if cursor.None? { return BadToken; }
      if !TokenLive(cursor.value, nonce, now) { return StaleToken; }
    }
    var key := if cursor.Some? then Some(cursor.value.key) else None;
    var flows, page, i := Sorted(listing), [], 0;
    while i < |flows|
      invariant i <= |flows| && |page| <= limit
      invariant page + After(flows[i..], key) == After(flows, key)
    {
      AfterNext(flows, i, key);
      if Beyond(key, flows[i].key) {
        if |page| >= limit {
          FullPage(page, After(flows[i..], key), After(flows, key), limit);
          var issued := if cursor.Some? then cursor.value.issued else observed;
          return Page(page, Encode(Cursor(nonce, issued, page[limit - 1].key)));
        }
        assert page + [flows[i]] + After(flows[i + 1..], key) == page + ([flows[i]] + After(flows[i + 1..], key));
        page := page + [flows[i]];
      }
      i := i + 1;
    }
    assert After(flows[i..], key) == [];
    r := Page(page, []);
  }

  // ----- A scan -----

  /** One request of a scan with what the service saw and answered. */
  datatype Exchange = Exchange(listing: seq<Flow>, requested: U32, token: seq<Byte>,
                               now: U64, observed: U64, reply: Reply)

  predicate Answered(nonce: U64, x: Exchange) {
    && Listing(x.listing)
    && x.reply == Serve(nonce, x.listing, x.requested, x.token, x.now, x.observed)
  }

  predicate Linked(xs: seq<Exchange>, i: nat) {
    0 < i < |xs| ==> xs[i - 1].reply.Page? && xs[i].token != [] && xs[i].token == xs[i - 1].reply.next
  }

  /** Successful pages chained by their tokens; the flow map may change arbitrarily in between. */
  ghost predicate IsScan(nonce: U64, xs: seq<Exchange>) {
    && xs != [] && xs[0].token == []
    && (forall i :: 0 <= i < |xs| ==> xs[i].reply.Page?)
    && (forall i {:trigger Answered(nonce, xs[i])} :: 0 <= i < |xs| ==> Answered(nonce, xs[i]))
    && (forall i {:trigger Linked(xs, i)} :: 0 < i < |xs| ==> Linked(xs, i))
  }

  function CursorAt(xs: seq<Exchange>, i: nat): Option<Key>
    requires i <= |xs|
  {
    if i == 0 || !xs[i - 1].reply.Page? || xs[i - 1].reply.flows == [] then None
    else Some(xs[i - 1].reply.flows[|xs[i - 1].reply.flows| - 1].key)
  }

  /** What request i had left to return. */
  function Left(xs: seq<Exchange>, i: nat): seq<Flow>
    requires i < |xs|
  {
    After(Sorted(xs[i].listing), CursorAt(xs, i))
  }

  /** Every page continues exactly behind the last flow returned, and carries the first page's issue time. */
  lemma {:induction false} PageContinues(nonce: U64, xs: seq<Exchange>, i: nat)
    requires IsScan(nonce, xs) && i < |xs|
    ensures 0 < Limit(xs[i].requested) <= MAX_LIMIT
    ensures xs[i].reply == PageOf(nonce, Left(xs, i), Limit(xs[i].requested), xs[0].observed)
  {
    assert Answered(nonce, xs[i]);
    if i > 0 {
      assert Linked(xs, i);
      PageContinues(nonce, xs, i - 1);
      var rest, limit := Left(xs, i - 1), Limit(xs[i - 1].requested);
      var c := Cursor(nonce, xs[0].observed, rest[limit - 1].key);
      assert xs[i].token == Encode(c);
      DecodeEncode(c);
    }
  }

  function Collected(xs: seq<Exchange>, n: nat): seq<Flow>
    requires n <= |xs|
  {
    if n == 0 then []
    else Collected(xs, n - 1) + if xs[n - 1].reply.Page? then xs[n - 1].reply.flows else []
  }

  predicate UpTo(s: seq<Flow>, cursor: Option<Key>) {
    forall i :: 0 <= i < |s| ==> cursor.Some? && !Less(cursor.value, s[i].key)
  }

  predicate AllBeyond(s: seq<Flow>, cursor: Option<Key>) {
    forall i :: 0 <= i < |s| ==> Beyond(cursor, s[i].key)
  }

  lemma LeftShape(nonce: U64, xs: seq<Exchange>, i: nat)
    requires IsScan(nonce, xs) && i < |xs|
    ensures Increasing(Left(xs, i)) && AllBeyond(Left(xs, i), CursorAt(xs, i))
    ensures forall f :: f in Left(xs, i) <==> f in xs[i].listing && Beyond(CursorAt(xs, i), f.key)
  {
    assert Answered(nonce, xs[i]);
    SortedIncreasing(xs[i].listing);
    AfterMembers(Sorted(xs[i].listing), CursorAt(xs, i));
    assert forall j :: 0 <= j < |Left(xs, i)| ==> Left(xs, i)[j] in Left(xs, i);
  }

  /** A page is a run of what was left, and all of it when no token follows. */
  lemma PageShape(nonce: U64, xs: seq<Exchange>, i: nat)
    requires IsScan(nonce, xs) && i < |xs|
    ensures var p := xs[i].reply;
            && p.flows <= Left(xs, i) && Increasing(p.flows) && AllBeyond(p.flows, CursorAt(xs, i))
            && (p.next == [] <==> p.flows == Left(xs, i))
            && (p.next != [] ==> |p.flows| == Limit(xs[i].requested) > 0)
  {
    PageContinues(nonce, xs, i);
    LeftShape(nonce, xs, i);
  }

  lemma JoinIncreasing(a: seq<Flow>, b: seq<Flow>, cursor: Option<Key>)
    requires Increasing(a) && Increasing(b) && UpTo(a, cursor) && AllBeyond(b, cursor)
    ensures Increasing(a + b)
    ensures b != [] ==> UpTo(a + b, Some(b[|b| - 1].key))
  {
  }

  lemma {:induction false} CollectedIncreasing(nonce: U64, xs: seq<Exchange>, n: nat)
    requires IsScan(nonce, xs) && n <= |xs|
    ensures Increasing(Collected(xs, n))
    ensures n < |xs| ==> UpTo(Collected(xs, n), CursorAt(xs, n))
  {
    if n > 0 {
      CollectedIncreasing(nonce, xs, n - 1);
      PageShape(nonce, xs, n - 1);
      JoinIncreasing(Collected(xs, n - 1), xs[n - 1].reply.flows, CursorAt(xs, n - 1));
      if n < |xs| { assert Linked(xs, n); }
    }
  }

  /** The concatenated pages of a scan are strictly increasing, whatever happens to the map in between. */
  lemma ScanOrdered(nonce: U64, xs: seq<Exchange>)
    requires IsScan(nonce, xs)
    ensures Increasing(Collected(xs, |xs|))
  {
    CollectedIncreasing(nonce, xs, |xs|);
  }

  predicate Names(s: seq<Flow>, k: Key, i: nat) {
    i < |s| && s[i].key == k
  }

  ghost predicate Holds(s: seq<Flow>, k: Key) {
    exists i :: Names(s, k, i)
  }

  lemma HoldsJoin(a: seq<Flow>, b: seq<Flow>, k: Key)
    ensures Holds(a, k) || Holds(b, k) ==> Holds(a + b, k)
  {
    if i: nat :| Names(a, k, i) { assert Names(a + b, k, i); }
    if i: nat :| Names(b, k, i) { assert Names(a + b, k, |a| + i); }
  }

  /** A flow still ahead of the cursor is on the page or ahead of the next cursor. */
  lemma PageAdvances(nonce: U64, xs: seq<Exchange>, i: nat, k: Key)
    requires IsScan(nonce, xs) && i < |xs| && Holds(xs[i].listing, k) && Beyond(CursorAt(xs, i), k)
    ensures Holds(xs[i].reply.flows, k) || (xs[i].reply.next != [] && Beyond(CursorAt(xs, i + 1), k))
  {
    PageShape(nonce, xs, i);
    LeftShape(nonce, xs, i);
    var l: nat :| Names(xs[i].listing, k, l);
    var f, p := xs[i].listing[l], xs[i].reply.flows;
    assert f in Left(xs, i);
    var j :| 0 <= j < |Left(xs, i)| && Left(xs, i)[j] == f;
    if j < |p| { assert Names(p, k, j); }
  }

  lemma {:induction false} Reached(nonce: U64, xs: seq<Exchange>, k: Key, n: nat)
    requires IsScan(nonce, xs) && n <= |xs|
    requires forall i :: 0 <= i < |xs| ==> Holds(xs[i].listing, k)
    ensures Holds(Collected(xs, n), k) || ((n > 0 ==> xs[n - 1].reply.next != []) && Beyond(CursorAt(xs, n), k))
  {
    if n > 0 {
      Reached(nonce, xs, k, n - 1);
      PageShape(nonce, xs, n - 1);
      if Beyond(CursorAt(xs, n - 1), k) { PageAdvances(nonce, xs, n - 1, k); }
      HoldsJoin(Collected(xs, n - 1), xs[n - 1].reply.flows, k);
    }
  }

  /** A flow present throughout a completed scan is returned exactly once. */
  lemma ScanComplete(nonce: U64, xs: seq<Exchange>, k: Key)
    requires IsScan(nonce, xs) && xs[|xs| - 1].reply.next == []
    requires forall i :: 0 <= i < |xs| ==> Holds(xs[i].listing, k)
    ensures Holds(Collected(xs, |xs|), k)
    ensures forall i, j :: Names(Collected(xs, |xs|), k, i) && Names(Collected(xs, |xs|), k, j) ==> i == j
  {
    Reached(nonce, xs, k, |xs|);
    ScanOrdered(nonce, xs);
  }

  /** Every flow returned was in the map when its page was made. */
  lemma ScanSound(nonce: U64, xs: seq<Exchange>, i: nat, f: Flow)
    requires IsScan(nonce, xs) && i < |xs| && f in xs[i].reply.flows
    ensures f in xs[i].listing
  {
    PageShape(nonce, xs, i);
    LeftShape(nonce, xs, i);
  }

  // ----- Termination -----

  lemma {:induction false} AfterShrinks(s: seq<Flow>, cursor: Option<Key>, n: nat)
    requires Increasing(s) && 0 < n <= |After(s, cursor)|
    ensures |After(s, Some(After(s, cursor)[n - 1].key))| == |After(s, cursor)| - n
  {
    var rest := After(s, cursor);
    AfterMembers(s, cursor);
    assert s == [s[0]] + s[1..];
    assert Increasing(s[1..]) by { assert forall i :: 0 <= i < |s[1..]| ==> s[1..][i] == s[i + 1]; }
    if Beyond(cursor, s[0].key) {
      if n == 1 {
        AllAfter(s[1..], cursor, s[0].key);
      } else {
        AfterShrinks(s[1..], cursor, n - 1);
        assert rest[n - 1] == After(s[1..], cursor)[n - 2];
        assert rest[n - 1] in After(s[1..], cursor);
        AfterMembers(s[1..], cursor);
        assert Less(s[0].key, rest[n - 1].key);
      }
    } else {
      AfterShrinks(s[1..], cursor, n);
      assert rest[n - 1] in rest;
    }
  }

  /** With everything beyond the new cursor as well as the old one, both leave the whole. */
  lemma {:induction false} AllAfter(s: seq<Flow>, cursor: Option<Key>, k: Key)
    requires forall i :: 0 <= i < |s| ==> Less(k, s[i].key)
    requires Beyond(cursor, k)
    ensures After(s, Some(k)) == After(s, cursor) == s
  {
    if s != [] {
      AllAfter(s[1..], cursor, k);
      assert s == [s[0]] + s[1..];
    }
  }

  lemma {:induction false} LeftShrinks(nonce: U64, xs: seq<Exchange>, n: nat)
    requires IsScan(nonce, xs) && n < |xs|
    requires forall i :: 0 <= i < |xs| ==> xs[i].listing == xs[0].listing
    ensures |Left(xs, n)| <= |xs[0].listing| - n
  {
    assert Answered(nonce, xs[0]);
    SortedIncreasing(xs[0].listing);
    if n == 0 {
      AfterWhole(Sorted(xs[0].listing));
    } else {
      LeftShrinks(nonce, xs, n - 1);
      PageShape(nonce, xs, n - 1);
      assert Linked(xs, n);
      var p := xs[n - 1].reply.flows;
      AfterShrinks(Sorted(xs[0].listing), CursorAt(xs, n - 1), |p|);
      assert p[|p| - 1] == Left(xs, n - 1)[|p| - 1];
    }
  }

  lemma {:induction false} AfterWhole(s: seq<Flow>)
    ensures |After(s, None)| == |s|
  {
    if s != [] { AfterWhole(s[1..]); }
  }

  /** A scan of an unchanging map ends: it has at most one page more than the map has flows. */
  lemma ScanTerminates(nonce: U64, xs: seq<Exchange>)
    requires IsScan(nonce, xs)
    requires forall i :: 0 <= i < |xs| ==> xs[i].listing == xs[0].listing
    ensures |xs| <= |xs[0].listing| + 1
  {
    LeftShrinks(nonce, xs, |xs| - 1);
  }

  /** The token is refused exactly by length, by instance or by age, and age counts from the first page. */
  lemma ContinuationAccepted(nonce: U64, xs: seq<Exchange>, listing: seq<Flow>, requested: U32, now: U64, observed: U64)
    requires IsScan(nonce, xs) && xs[|xs| - 1].reply.next != [] && Limit(requested) <= MAX_LIMIT
    ensures Serve(nonce, listing, requested, xs[|xs| - 1].reply.next, now, observed).Page?
       <==> xs[0].observed <= now && now - xs[0].observed <= TOKEN_LIFETIME
  {
    var n := |xs| - 1;
    PageContinues(nonce, xs, n);
    var c := Cursor(nonce, xs[0].observed, Left(xs, n)[Limit(xs[n].requested) - 1].key);
    DecodeEncode(c);
  }
}
