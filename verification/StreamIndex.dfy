/** The index of streams of an inbound session, driven by the hooks of nghttp2.

The reference is the history of hooks alone: `Opening` says which hook, if any, opened the stream that an id stands
for now.  The session's map, nghttp2's user data and the frames each stream object has received are all determined by
it, after every sequence of hooks.
*/
module StreamIndex {
  import opened Basics

  newtype int32 = x: int | -0x8000_0000 <= x < 0x8000_0000

  const NGHTTP2_ERR_CALLBACK_FAILURE: int := -902

  datatype FrameType = Data | Headers | Other

  datatype Category = Request | NotRequest

  datatype Hook =
    | BeginHeaders(id: int32, kind: FrameType, cat: Category)
    | FrameRecv(id: int32, kind: FrameType, endStream: bool)
    | StreamClose(id: int32)

  /** `_streams` has unsigned keys; the conversion from nghttp2's signed ids wraps around. */
  function Key(id: int32): nat {
    if id < 0 then id as int + 0x1_0000_0000 else id as int
  }

  lemma KeyInjective(i: int32, k: int32)
    ensures Key(i) == Key(k) <==> i == k
    ensures Key(i) < 0x1_0000_0000 && (Key(i) - i as int) % 0x1_0000_0000 == 0
  {
  }

  predicate Opens(h: Hook, id: int32) {
    h.BeginHeaders? && h.id == id && h.kind.Headers? && h.cat.Request?
  }

  predicate Closes(h: Hook, id: int32) {
    h.StreamClose? && h.id == id
  }

  /** A frame that ends the peer's side of the stream. */
  predicate Ends(h: Hook, id: int32) {
    h.FrameRecv? && h.id == id && (h.kind.Data? || h.kind.Headers?) && h.endStream
  }

  /** The position in the history of the hook that opened the present stream of this id. */
  function Opening(history: seq<Hook>, id: int32): Option<nat> {
    if history == [] then None
    else
      var n := |history| - 1;
      var before := Opening(history[..n], id);
      if Closes(history[n], id) then None
      else if Opens(history[n], id) && before.None? then Some(n)
      else before
  }

  /** The number of ending frames since then. */
  function Received(history: seq<Hook>, id: int32): nat {
    if history == [] then 0
    else
      var n := |history| - 1;
      if Opening(history[..n], id).None? || Opening(history, id).None? then 0
      else Received(history[..n], id) + if Ends(history[n], id) then 1 else 0
  }

  ghost predicate ClosedBetween(history: seq<Hook>, id: int32, i: int, k: int) {
    exists m :: i < m < k && 0 <= m < |history| && Closes(history[m], id)
  }

  /** Without recursion: opened at `i`, not closed since, and every earlier opening was closed before `i`. */
  ghost predicate OpenedAt(history: seq<Hook>, id: int32, i: nat) {
    && i < |history| && Opens(history[i], id)
    && !ClosedBetween(history, id, i, |history|)
    && AllClosed(history, id, i)
  }

  ghost predicate AllClosed(history: seq<Hook>, id: int32, upTo: int) {
    forall k :: 0 <= k < upTo <= |history| && Opens(history[k], id) ==> ClosedBetween(history, id, k, upTo)
  }

  lemma ClosedBetweenSnoc(history: seq<Hook>, h: Hook, id: int32, i: int)
    requires i < |history|
    ensures forall k :: 0 <= k <= |history| ==>
      (ClosedBetween(history + [h], id, i, k) <==> ClosedBetween(history, id, i, k))
    ensures ClosedBetween(history + [h], id, i, |history| + 1) <==>
      ClosedBetween(history, id, i, |history|) || Closes(h, id)
  {
    var all := history + [h];
    assert forall m :: 0 <= m < |history| ==> all[m] == history[m];
    assert all[|history|] == h;
  }

  lemma AllClosedSnoc(history: seq<Hook>, h: Hook, id: int32)
    ensures forall k :: 0 <= k <= |history| ==> (AllClosed(history + [h], id, k) <==> AllClosed(history, id, k))
    ensures AllClosed(history + [h], id, |history| + 1) <==>
      Closes(h, id) || (AllClosed(history, id, |history|) && !Opens(h, id))
  {
    var all := history + [h];
    forall i | 0 <= i < |history|
      ensures all[i] == history[i]
      ensures forall k :: 0 <= k <= |history| ==> (ClosedBetween(all, id, i, k) <==> ClosedBetween(history, id, i, k))
      ensures ClosedBetween(all, id, i, |history| + 1) <==> ClosedBetween(history, id, i, |history|) || Closes(h, id)
    {
      ClosedBetweenSnoc(history, h, id, i);
    }
    assert all[|history|] == h;
  }

  lemma OpenedAtSnoc(history: seq<Hook>, h: Hook, id: int32, i: nat)
    ensures OpenedAt(history + [h], id, i) <==>
      if i < |history| then OpenedAt(history, id, i) && !Closes(h, id)
      else i == |history| && Opens(h, id) && AllClosed(history, id, i)
  {
    AllClosedSnoc(history, h, id);
    if i < |history| {
      ClosedBetweenSnoc(history, h, id, i);
      assert (history + [h])[i] == history[i];
    }
  }

  /** `Opening` is that position; it exists exactly when some opening has not been closed. */
  lemma {:induction false} OpeningMeans(history: seq<Hook>, id: int32)
    ensures forall i: nat :: Opening(history, id) == Some(i) <==> OpenedAt(history, id, i)
    ensures Opening(history, id).None? <==> AllClosed(history, id, |history|)
    decreases |history|
  {
    if history != [] {
      var n := |history| - 1;
      var before := history[..n];
      assert history == before + [history[n]];
      OpeningMeans(before, id);
      AllClosedSnoc(before, history[n], id);
      forall i: nat
        ensures Opening(history, id) == Some(i) <==> OpenedAt(history, id, i)
      {
        OpenedAtSnoc(before, history[n], id, i);
      }
    }
  }

  /** Where the ending frames for this id are, behind position `i`. */
  function EndsSince(history: seq<Hook>, id: int32, i: int): (positions: set<int>)
    ensures forall m :: m in positions <==>
      && 0 <= m && i < m < |history|
      && (history[m] == FrameRecv(id, Data, true) || history[m] == FrameRecv(id, Headers, true))
  {
    set m | i < m < |history| && 0 <= m && Ends(history[m], id)
  }

  lemma EndsSinceSnoc(history: seq<Hook>, h: Hook, id: int32, i: int)
    requires i <= |history|
    ensures EndsSince(history + [h], id, i) ==
      EndsSince(history, id, i) + if i < |history| && Ends(h, id) then {|history|} else {}
  {
    var all := history + [h];
    assert forall m :: 0 <= m < |history| ==> all[m] == history[m];
    assert all[|history|] == h;
  }

  /** `Received` is the number of ending frames for this id behind the hook that opened its stream. */
  lemma {:induction false} ReceivedMeans(history: seq<Hook>, id: int32)
    ensures match Opening(history, id)
      case None => Received(history, id) == 0
      case Some(i) => i < |history| && Received(history, id) == |EndsSince(history, id, i)|
    decreases |history|
  {
    if history != [] {
      var n := |history| - 1;
      var before := history[..n];
      assert history == before + [history[n]];
      ReceivedMeans(before, id);
      if Opening(history, id).Some? {
        var i := Opening(history, id).value;
        EndsSinceSnoc(before, history[n], id, i);
        if i == n {
          assert EndsSince(before, id, n) == {};
        }
      }
    }
  }

  // ---------------------------------------------------------------------------------------------
  // One more hook

  function OpeningAfter(before: Option<nat>, n: nat, h: Hook, id: int32): Option<nat> {
    if Closes(h, id) then None else if Opens(h, id) && before.None? then Some(n) else before
  }

  function ReceivedAfter(before: Option<nat>, after: Option<nat>, received: nat, h: Hook, id: int32): nat {
    if before.None? || after.None? then 0 else received + if Ends(h, id) then 1 else 0
  }

  lemma After(history: seq<Hook>, h: Hook, id: int32)
    ensures Opening(history + [h], id) == OpeningAfter(Opening(history, id), |history|, h, id)
    ensures Received(history + [h], id) ==
      ReceivedAfter(Opening(history, id), Opening(history + [h], id), Received(history, id), h, id)
  {
  }

  // ---------------------------------------------------------------------------------------------
  // The objects

  class Stream {
    const id: int32
    ghost const born: nat      // the position in the history of the hook that made it
    var received: nat          // calls of `recv_frame`

    constructor (id: int32, ghost born: nat)
      ensures this.id == id && this.born == born && received == 0
    {
      this.id, this.born, received := id, born, 0;
    }
  }

  class InboundSession {
    var streams: map<nat, Stream>
    var userData: map<int32, Stream>       // what nghttp2 keeps for its open streams
    ghost var history: seq<Hook>

    /** What the index says about one id, after the hooks so far. */
    ghost predicate Agrees(id: int32)
      reads this, streams.Values
    {
      match Opening(history, id)
      case None => Key(id) !in streams && id !in userData
      case Some(n) =>
        && Key(id) in streams && id in userData && userData[id] == streams[Key(id)]
        && var s := streams[Key(id)];
          s.id == id && s.born == n && s.received == Received(history, id)
    }

    ghost predicate Valid()
      reads this, streams.Values
    {
      && (forall id :: Agrees(id))
      && (forall k :: k in streams ==> Key(streams[k].id) == k)
    }

    constructor ()
      ensures Valid() && history == []
    {
      streams, userData, history := map[], map[], [];
    }

    method BeginHeadersHook(id: int32, kind: FrameType, cat: Category) returns (r: int)
      requires Valid()
      modifies this
      ensures Valid() && history == old(history) + [BeginHeaders(id, kind, cat)] && r == 0
      // an id that has a stream keeps it, another one gets a new stream, if these are the headers of a request
      ensures forall k :: k in old(streams) ==> k in streams && streams[k] == old(streams[k])
      ensures forall k :: k in streams && k !in old(streams) ==> k == Key(id) && fresh(streams[k])
      ensures kind.Headers? && cat.Request? ==> Key(id) in streams && id in userData && userData[id] == streams[Key(id)]
      ensures !kind.Headers? || !cat.Request? ==> streams == old(streams) && userData == old(userData)
    {
      r := 0;
      if !kind.Headers? || !cat.Request? || Key(id) in streams {
        Ignore(BeginHeaders(id, kind, cat));
      } else {
        Emplace(id, BeginHeaders(id, kind, cat));
      }
      assert Agrees(id);
    }

    /** A hook that leaves the index alone. */
    ghost method Ignore(h: Hook)
      requires Valid() && h.BeginHeaders? && (Opens(h, h.id) ==> Key(h.id) in streams)
      modifies this`history
      ensures Valid() && history == old(history) + [h]
    {
      history := history + [h];
      forall i: int32
        ensures Agrees(i)
      {
        assert old(Agrees(i));
        After(old(history), h, i);
      }
    }

    method Emplace(id: int32, ghost h: Hook)
      requires Valid() && Opens(h, id) && Key(id) !in streams
      modifies this
      ensures Valid() && history == old(history) + [h]
      ensures Key(id) in streams && fresh(streams[Key(id)])
      ensures streams == old(streams)[Key(id) := streams[Key(id)]]
    {
      var s := new Stream(id, |history|);
      streams := streams[Key(id) := s];
      userData := userData[id := s];
      history := history + [h];
      forall i: int32
        ensures Agrees(i)
      {
        assert old(Agrees(i)) && old(Agrees(id));
        After(old(history), h, i);
        KeyInjective(i, id);
      }
    }

    /** `recvResult` is what `stream::recv_frame` returns. */
    method FrameRecvHook(id: int32, kind: FrameType, endStream: bool, recvResult: int) returns (r: int)
      requires Valid()
      modifies if Key(id) in streams then {this, streams[Key(id)]} else {this}
      ensures Valid() && history == old(history) + [FrameRecv(id, kind, endStream)]
      ensures streams == old(streams) && userData == old(userData)
      // a frame that does not end a stream reaches none
      ensures !endStream || kind.Other? ==>
        r == 0 && forall k :: k in streams ==> streams[k].received == old(streams[k].received)
      // one that does reaches the stream with its id, and no other
      ensures endStream && !kind.Other? && Key(id) in streams ==>
        && r == recvResult
        && forall k :: k in streams ==> streams[k].received == old(streams[k].received) + if k == Key(id) then 1 else 0
      ensures endStream && !kind.Other? && Key(id) !in streams ==>
        r == -902 && forall k :: k in streams ==> streams[k].received == old(streams[k].received)
    {
      ghost var h := FrameRecv(id, kind, endStream);
      assert Agrees(id);
      r := 0;
      if (kind.Data? || kind.Headers?) && endStream {
        if Key(id) in streams {
          var s := streams[Key(id)];
          assert forall k :: k in streams && streams[k] == s ==> k == Key(id);
          s.received := s.received + 1;
          r := recvResult;
        } else {
          r := NGHTTP2_ERR_CALLBACK_FAILURE;
        }
      }
      history := history + [h];
      forall i: int32
        ensures Agrees(i)
      {
        assert old(Agrees(i));
        After(old(history), h, i);
        KeyInjective(i, id);
        if i != id && Opening(history, i).Some? {
          assert streams[Key(i)].received == old(streams[Key(i)].received);
        }
      }
    }

    /** After this hook nghttp2 forgets the stream and its user data. */
    method StreamCloseHook(id: int32) returns (r: int)
      requires Valid()
      modifies this
      ensures Valid() && history == old(history) + [StreamClose(id)] && r == 0
      ensures streams == old(streams) - {Key(id)}
    {
      ghost var h := StreamClose(id);
      streams := streams - {Key(id)};
      userData := userData - {id};
      history := history + [h];
      r := 0;
      forall i: int32
        ensures Agrees(i)
      {
        assert old(Agrees(i)) && old(Agrees(id));
        After(old(history), h, i);
        KeyInjective(i, id);
      }
    }

    /** The index agrees with the library over every sequence of hooks. */
    method Drive(hooks: seq<Hook>, recvResult: Hook -> int)
      requires Valid() && history == []
      modifies this
      ensures Valid() && history == hooks
      ensures forall id :: id in userData <==> !AllClosed(hooks, id, |hooks|)
      ensures forall id :: id in userData ==>
        && Key(id) in streams && userData[id] == streams[Key(id)] && streams[Key(id)].id == id
        && OpenedAt(hooks, id, streams[Key(id)].born)
        && hooks[streams[Key(id)].born] == BeginHeaders(id, Headers, Request)
        && streams[Key(id)].received == |EndsSince(hooks, id, streams[Key(id)].born)|
      ensures forall k :: k in streams ==> Key(streams[k].id) == k && streams[k].id in userData
    {
      assert forall k :: k in streams ==> Agrees(streams[k].id);
      assert streams.Keys == {};
      for n := 0 to |hooks|
        invariant Valid() && history == hooks[..n]
        invariant forall k :: k in streams ==> fresh(streams[k])
      {
        match hooks[n] {
          case BeginHeaders(id, kind, cat) => var _ := BeginHeadersHook(id, kind, cat);
          case FrameRecv(id, kind, endStream) => var _ := FrameRecvHook(id, kind, endStream, recvResult(hooks[n]));
          case StreamClose(id) => var _ := StreamCloseHook(id);
        }
        assert hooks[..n + 1] == hooks[..n] + [hooks[n]];
      }
      assert hooks[..|hooks|] == hooks;
      forall id: int32
        ensures Agrees(id)
        ensures Opening(hooks, id).None? <==> AllClosed(hooks, id, |hooks|)
        ensures forall i: nat :: Opening(hooks, id) == Some(i) <==> OpenedAt(hooks, id, i)
      {
        OpeningMeans(hooks, id);
      }
      forall id: int32 | Opening(hooks, id).Some?
        ensures Received(hooks, id) == |EndsSince(hooks, id, Opening(hooks, id).value)|
      {
        ReceivedMeans(hooks, id);
      }
      forall k | k in streams
        ensures streams[k].id in userData
      {
        assert Agrees(streams[k].id);
      }
    }
  }
}
