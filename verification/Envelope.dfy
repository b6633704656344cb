/** The agent's output (internal/checker/checker.go): the scan for JSON objects in noisy text and the
    strict reading of structured_output. JSON itself is a parameter. */
module Envelope {
  import opened Text
  import opened Model
  import opened Citations

  /** map[string]json.RawMessage. */
  type Object = map<string, string>

  /** What encoding/json answers. `decode` is a Decoder on a text: the object it starts with and
      InputOffset after it; the other two are Unmarshal into an object and into a findings array. */
  datatype Codec = Codec(
    decode: string -> Option<(Object, nat)>,
    asObject: string -> Option<Object>,
    asFindings: string -> Option<seq<RawFinding>>)

  /** A decoded object takes up at least one character and no more than there are. */
  ghost predicate Consumes(codec: Codec) {
    forall s :: codec.decode(s).Some? ==> 1 <= codec.decode(s).value.1 <= |s|
  }

  const MAX_OBJECTS := 64

  datatype Span<+O> = Span(at: nat, end: nat, obj: O)

  /** For each position, the object that starts there and where it ends, if any does. */
  datatype Hit<+O> = Miss | Hit(obj: O, end: nat)

  function HitAt(codec: Codec, b: string, p: nat): Hit<Object>
    requires p < |b|
  {
    if b[p] == '{' then
      match codec.decode(b[p..])
      case None => Miss
      case Some(hit) => Hit(hit.0, p + hit.1)
    else Miss
  }

  function HitsOf(codec: Codec, b: string): (r: seq<Hit<Object>>)
    ensures |r| == |b|
  {
    seq(|b|, p requires 0 <= p < |b| => HitAt(codec, b, p))
  }

  /** Every object ends after it starts and no later than the text. */
  ghost predicate Forward<O>(hits: seq<Hit<O>>) {
    forall p :: 0 <= p < |hits| && hits[p].Hit? ==> p < hits[p].end <= |hits|
  }

  lemma HitsForward(codec: Codec, b: string)
    requires Consumes(codec)
    ensures Forward(HitsOf(codec, b))
  {
    var hits := HitsOf(codec, b);
    forall p | 0 <= p < |hits| && hits[p].Hit? ensures p < hits[p].end <= |hits| {
      assert codec.decode(b[p..]).Some?;
    }
  }

  /** Tries every position in turn; a hit is taken whole. */
  ghost function Scan<O>(hits: seq<Hit<O>>, start: nat, room: nat): seq<Span<O>>
    requires Forward(hits)
    decreases |hits| - start
  {
    if room == 0 || start >= |hits| then []
    else match hits[start]
      case Miss => Scan(hits, start + 1, room)
      case Hit(obj, end) => [Span(start, end, obj)] + Scan(hits, end, room - 1)
  }

  lemma {:induction false} SkipMisses<O>(hits: seq<Hit<O>>, start: nat, next: nat, room: nat)
    requires Forward(hits) && start <= next <= |hits|
    requires forall p :: start <= p < next ==> hits[p].Miss?
    ensures Scan(hits, start, room) == Scan(hits, next, room)
    decreases next - start
  {
    if start == next {
    } else {
      SkipMisses(hits, start + 1, next, room);
    }
  }

  function Objects<O>(spans: seq<Span<O>>): (r: seq<O>)
    ensures |r| == |spans|
  {
    seq(|spans|, i requires 0 <= i < |spans| => spans[i].obj)
  }

  /** bytes.IndexByte(b[start:], '{'), as an absolute position. */
  function IndexBrace(b: string, start: nat): (r: Option<nat>)
    requires start <= |b|
    ensures r == None ==> forall p :: start <= p < |b| ==> b[p] != '{'
    ensures r.Some? ==> start <= r.value < |b| && b[r.value] == '{' && forall p :: start <= p < r.value ==> b[p] != '{'
    decreases |b| - start
  {
    if start == |b| then None else if b[start] == '{' then Some(start) else IndexBrace(b, start + 1)
  }

  /** The scan so far: what was collected, then what is still to come from `start`. */
  ghost predicate Progress<O>(hits: seq<Hit<O>>, start: nat, out: seq<O>)
    requires Forward(hits)
  {
    |out| <= MAX_OBJECTS && Objects(Scan(hits, 0, MAX_OBJECTS)) == out + Objects(Scan(hits, start, MAX_OBJECTS - |out|))
  }

  lemma ProgressHit<O>(hits: seq<Hit<O>>, at: nat, out: seq<O>)
    requires Forward(hits) && Progress(hits, at, out) && |out| < MAX_OBJECTS && at < |hits| && hits[at].Hit?
    ensures Progress(hits, hits[at].end, out + [hits[at].obj])
  {
    var rest := Scan(hits, hits[at].end, MAX_OBJECTS - |out| - 1);
    var head := Span(at, hits[at].end, hits[at].obj);
    assert Objects([head] + rest) == [head.obj] + Objects(rest);
    assert out + ([head.obj] + Objects(rest)) == (out + [head.obj]) + Objects(rest);
  }

  /** One turn of the loop: jump to the next brace and try to decode there. */
  method DecodeNext(codec: Codec, b: string, start: nat, out: seq<Object>) returns (next: nat, now: seq<Object>)
    requires Consumes(codec) && start < |b| && |out| < MAX_OBJECTS
    requires Forward(HitsOf(codec, b)) && Progress(HitsOf(codec, b), start, out)
    ensures start < next <= |b| && Progress(HitsOf(codec, b), next, now)
  {
    var brace := IndexBrace(b, start);
    ToBrace(codec, b, start, brace, out);
    if brace == None {
      return |b|, out;
    }
    var at := brace.value;
    var hit := codec.decode(b[at..]);
    if hit == None {
      return at + 1, out;
    }
    next, now := at + hit.value.1, out + [hit.value.0];
    assert HitAt(codec, b, at) == Hit(hit.value.0, next);
    ProgressHit(HitsOf(codec, b), at, out);
  }

  /** The jump misses nothing. */
  lemma ToBrace(codec: Codec, b: string, start: nat, brace: Option<nat>, out: seq<Object>)
    requires start < |b| && brace == IndexBrace(b, start)
    requires Forward(HitsOf(codec, b)) && Progress(HitsOf(codec, b), start, out)
    ensures match brace
            case None => Progress(HitsOf(codec, b), |b|, out)
            case Some(at) =>
              Progress(HitsOf(codec, b), at, out) && HitsOf(codec, b)[at] == HitAt(codec, b, at)
              && (HitAt(codec, b, at).Miss? ==> Progress(HitsOf(codec, b), at + 1, out))
  {
    var hits := HitsOf(codec, b);
    var at := if brace == None then |b| else brace.value;
    SkipMisses(hits, start, at, MAX_OBJECTS - |out|);
    if at < |b| && hits[at].Miss? {
      SkipMisses(hits, at, at + 1, MAX_OBJECTS - |out|);
    }
  }

  /** The loop jumps from brace to brace, and never needs the positions between. */
  method DecodeObjects(codec: Codec, b: string) returns (out: seq<Object>)
    requires Consumes(codec)
    ensures Forward(HitsOf(codec, b))
    ensures out == Objects(Scan(HitsOf(codec, b), 0, MAX_OBJECTS))
  {
    out := [];
    var start := 0;
    HitsForward(codec, b);
    while start < |b| && |out| < MAX_OBJECTS
      invariant start <= |b| && Progress(HitsOf(codec, b), start, out)
      decreases |b| - start
    {
      start, out := DecodeNext(codec, b, start, out);
    }
  }

  // ---- leftmost, greedy, disjoint ----

  predicate Inside<O>(s: Span<O>, p: nat) {
    s.at <= p < s.end
  }

  predicate Covered<O>(spans: seq<Span<O>>, p: nat) {
    exists i :: 0 <= i < |spans| && Inside(spans[i], p)
  }

  predicate AllBefore<O>(spans: seq<Span<O>>, p: nat) {
    forall i :: 0 <= i < |spans| ==> spans[i].end <= p
  }

  predicate HitFrom<O>(hits: seq<Hit<O>>, start: nat, p: nat) {
    start <= p < |hits| && hits[p].Hit?
  }

  ghost predicate IsHit<O>(hits: seq<Hit<O>>, s: Span<O>) {
    s.at < |hits| && hits[s.at] == Hit(s.obj, s.end)
  }

  /** Spans are hits, lie in order without overlap, and every hit from `start` on starts inside one of
      them, unless the room ran out before it. */
  ghost predicate Greedy<O>(hits: seq<Hit<O>>, start: nat, room: nat, spans: seq<Span<O>>) {
    && |spans| <= room
    && (forall i :: 0 <= i < |spans| ==> IsHit(hits, spans[i]) && start <= spans[i].at)
    && (forall i, j :: 0 <= i < j < |spans| ==> spans[i].end <= spans[j].at)
    && (forall p: nat :: HitFrom(hits, start, p) ==> Covered(spans, p) || (|spans| == room && AllBefore(spans, p)))
  }

  lemma GreedyCons<O>(hits: seq<Hit<O>>, start: nat, room: nat, rest: seq<Span<O>>)
    requires Forward(hits) && room > 0 && start < |hits| && hits[start].Hit?
    requires Greedy(hits, hits[start].end, room - 1, rest)
    ensures Greedy(hits, start, room, [Span(start, hits[start].end, hits[start].obj)] + rest)
  {
    var head := Span(start, hits[start].end, hits[start].obj);
    var spans := [head] + rest;
    forall p: nat | HitFrom(hits, start, p) ensures Covered(spans, p) || (|spans| == room && AllBefore(spans, p)) {
      assert p >= head.end ==> HitFrom(hits, head.end, p);
      if p < head.end {
        assert Inside(spans[0], p);
      } else if Covered(rest, p) {
        var i :| 0 <= i < |rest| && Inside(rest[i], p);
        assert Inside(spans[i + 1], p);
      } else {
        assert AllBefore(rest, p);
      }
    }
  }

  lemma GreedyOverMiss<O>(hits: seq<Hit<O>>, start: nat, room: nat, spans: seq<Span<O>>)
    requires Greedy(hits, start + 1, room, spans) && start < |hits| && hits[start].Miss?
    ensures Greedy(hits, start, room, spans)
  {
    forall p: nat | HitFrom(hits, start, p) ensures Covered(spans, p) || (|spans| == room && AllBefore(spans, p)) {
      assert HitFrom(hits, start + 1, p);
    }
  }

  lemma GreedyNothing<O>(hits: seq<Hit<O>>, start: nat, room: nat)
    requires room == 0 || start >= |hits|
    ensures Greedy(hits, start, room, [])
  {
  }

  lemma {:induction false} ScanGreedy<O>(hits: seq<Hit<O>>, start: nat, room: nat)
    requires Forward(hits)
    ensures Greedy(hits, start, room, Scan(hits, start, room))
    decreases |hits| - start
  {
    if room == 0 || start >= |hits| {
      GreedyNothing(hits, start, room);
    } else if hits[start].Miss? {
      ScanGreedy(hits, start + 1, room);
      GreedyOverMiss(hits, start, room, Scan(hits, start + 1, room));
    } else {
      ScanGreedy(hits, hits[start].end, room - 1);
      GreedyCons(hits, start, room, Scan(hits, hits[start].end, room - 1));
    }
  }

  lemma GreedyTail<O>(hits: seq<Hit<O>>, start: nat, room: nat, spans: seq<Span<O>>)
    requires Forward(hits) && Greedy(hits, start, room, spans) && spans != []
    ensures Greedy(hits, spans[0].end, room - 1, spans[1..])
  {
    var rest := spans[1..];
    assert IsHit(hits, spans[0]);
    forall p: nat | HitFrom(hits, spans[0].end, p)
      ensures Covered(rest, p) || (|rest| == room - 1 && AllBefore(rest, p))
    {
      assert HitFrom(hits, start, p);
      if Covered(spans, p) {
        var i :| 0 <= i < |spans| && Inside(spans[i], p);
        assert Inside(rest[i - 1], p);
      }
    }
  }

  /** A hit at the very start heads every greedy sequence with room for one. */
  lemma GreedyHead<O>(hits: seq<Hit<O>>, start: nat, room: nat, spans: seq<Span<O>>)
    requires Forward(hits) && Greedy(hits, start, room, spans) && room > 0 && start < |hits| && hits[start].Hit?
    ensures spans != [] && spans[0] == Span(start, hits[start].end, hits[start].obj)
  {
    assert HitFrom(hits, start, start);
    if spans != [] {
      assert IsHit(hits, spans[0]);
      assert spans[0].at < spans[0].end;
    }
  }

  lemma GreedyEnd<O>(hits: seq<Hit<O>>, start: nat, room: nat, spans: seq<Span<O>>)
    requires Greedy(hits, start, room, spans) && (room == 0 || start >= |hits|)
    ensures spans == []
  {
    assert spans == [] || IsHit(hits, spans[0]);
  }

  lemma GreedyMiss<O>(hits: seq<Hit<O>>, start: nat, room: nat, spans: seq<Span<O>>)
    requires Greedy(hits, start, room, spans) && start < |hits| && hits[start].Miss?
    ensures Greedy(hits, start + 1, room, spans)
  {
    forall i | 0 <= i < |spans| ensures start + 1 <= spans[i].at {
      assert IsHit(hits, spans[i]);
    }
    forall p: nat | HitFrom(hits, start + 1, p) ensures Covered(spans, p) || (|spans| == room && AllBefore(spans, p)) {
      assert HitFrom(hits, start, p);
    }
  }

  lemma ScanHit<O>(hits: seq<Hit<O>>, start: nat, room: nat, spans: seq<Span<O>>)
    requires Forward(hits) && room > 0 && start < |hits| && hits[start].Hit?
    requires spans != [] && spans[0] == Span(start, hits[start].end, hits[start].obj)
    requires spans[1..] == Scan(hits, hits[start].end, room - 1)
    ensures spans == Scan(hits, start, room)
  {
    assert spans == [spans[0]] + spans[1..];
  }

  /** That description determines the scan. */
  lemma {:induction false} GreedyUnique<O>(hits: seq<Hit<O>>, start: nat, room: nat, spans: seq<Span<O>>)
    requires Forward(hits) && Greedy(hits, start, room, spans)
    ensures spans == Scan(hits, start, room)
    decreases |hits| - start
  {
    if room == 0 || start >= |hits| {
      GreedyEnd(hits, start, room, spans);
    } else if hits[start].Miss? {
      GreedyMiss(hits, start, room, spans);
      GreedyUnique(hits, start + 1, room, spans);
    } else {
      GreedyHead(hits, start, room, spans);
      GreedyTail(hits, start, room, spans);
      GreedyUnique(hits, hits[start].end, room - 1, spans[1..]);
      ScanHit(hits, start, room, spans);
    }
  }

  ghost function ScannedObjects(codec: Codec, stdout: string): seq<Object>
    requires Consumes(codec)
  {
    HitsForward(codec, stdout);
    Objects(Scan(HitsOf(codec, stdout), 0, MAX_OBJECTS))
  }

  // ---- printed objects and noise ----

  /** A text that decodes to an object whatever follows it, as a printed JSON object does. */
  ghost predicate Prints(codec: Codec, text: string, obj: Object) {
    text != "" && text[0] == '{' && forall rest :: DecodesBefore(codec, text, obj, rest)
  }

  predicate DecodesBefore(codec: Codec, text: string, obj: Object, rest: string) {
    codec.decode(text + rest) == Some((obj, |text|))
  }

  /** Noise, then a printed object. */
  datatype Piece = Piece(noise: string, text: string, obj: Object)

  ghost predicate PrintedAfterNoise(codec: Codec, piece: Piece) {
    '{' !in piece.noise && Prints(codec, piece.text, piece.obj)
  }

  ghost predicate AllPrinted(codec: Codec, pieces: seq<Piece>) {
    forall i :: 0 <= i < |pieces| ==> PrintedAfterNoise(codec, pieces[i])
  }

  function Output(pieces: seq<Piece>, tail: string): string {
    if pieces == [] then tail else pieces[0].noise + pieces[0].text + Output(pieces[1..], tail)
  }

  function ObjectsOf(pieces: seq<Piece>): (r: seq<Object>)
    ensures |r| == |pieces|
  {
    seq(|pieces|, i requires 0 <= i < |pieces| => pieces[i].obj)
  }

  /** No hit starts in a stretch without braces. */
  lemma NoiseMisses(codec: Codec, b: string, start: nat, end: nat)
    requires start <= end <= |b| && '{' !in b[start..end]
    ensures forall p :: start <= p < end ==> HitsOf(codec, b)[p].Miss?
  {
    forall p | start <= p < end ensures HitsOf(codec, b)[p].Miss? {
      assert b[p] == b[start..end][p - start];
    }
  }

  /** An object printed after noise is the next one found, whatever lies before and behind. */
  lemma FindsPrinted(codec: Codec, b: string, start: nat, at: nat, end: nat, obj: Object, room: nat)
    requires Consumes(codec) && room > 0 && start <= at < end <= |b|
    requires '{' !in b[start..at] && b[at] == '{' && codec.decode(b[at..]) == Some((obj, end - at))
    ensures Forward(HitsOf(codec, b))
    ensures Scan(HitsOf(codec, b), start, room) == [Span(at, end, obj)] + Scan(HitsOf(codec, b), end, room - 1)
  {
    HitsForward(codec, b);
    NoiseMisses(codec, b, start, at);
    SkipMisses(HitsOf(codec, b), start, at, room);
    assert HitsOf(codec, b)[at] == HitAt(codec, b, at);
  }

  /** From `start` on the hits are those of these pieces and no others. */
  ghost predicate Laid(hits: seq<Hit<Object>>, start: nat, pieces: seq<Piece>)
    requires start <= |hits|
    decreases |pieces|
  {
    if pieces == [] then forall p :: start <= p < |hits| ==> hits[p].Miss?
    else
      var at := start + |pieces[0].noise|; var next := at + |pieces[0].text|;
      && at < next <= |hits| && (forall p :: start <= p < at ==> hits[p].Miss?)
      && hits[at] == Hit(pieces[0].obj, next) && Laid(hits, next, pieces[1..])
  }

  function Fewer(m: nat, n: nat): nat {
    if m < n then m else n
  }

  /** From `start` on the scan finds these printed objects, as far as there is room. */
  ghost predicate Finds(hits: seq<Hit<Object>>, start: nat, pieces: seq<Piece>, room: nat)
    requires Forward(hits)
  {
    Objects(Scan(hits, start, room)) == ObjectsOf(pieces)[..Fewer(|pieces|, room)]
  }

  lemma FindsNothing(hits: seq<Hit<Object>>, start: nat, pieces: seq<Piece>, room: nat)
    requires Forward(hits) && start <= |hits| && Laid(hits, start, pieces) && (room == 0 || pieces == [])
    ensures Finds(hits, start, pieces, room)
  {
    if room == 0 {
    } else {
      SkipMisses(hits, start, |hits|, room);
    }
  }

  lemma FindsFirst(hits: seq<Hit<Object>>, start: nat, head: Span<Object>, pieces: seq<Piece>, room: nat)
    requires Forward(hits) && pieces != [] && head.obj == pieces[0].obj && room > 0
    requires Scan(hits, start, room) == [head] + Scan(hits, head.end, room - 1)
    requires Finds(hits, head.end, pieces[1..], room - 1)
    ensures Finds(hits, start, pieces, room)
  {
    var rest := Scan(hits, head.end, room - 1);
    forall i | 0 < i < |rest| + 1 ensures Objects([head] + rest)[i] == ObjectsOf(pieces)[i] {
      assert Objects(rest)[i - 1] == ObjectsOf(pieces[1..])[i - 1];
    }
  }

  /** The printed objects that are still to come are what the scan still finds, while there is room. */
  lemma {:induction false} FindsTheRest(hits: seq<Hit<Object>>, start: nat, pieces: seq<Piece>, room: nat)
    requires Forward(hits) && start <= |hits| && Laid(hits, start, pieces)
    ensures Finds(hits, start, pieces, room)
    decreases |pieces|
  {
    if pieces == [] || room == 0 {
      FindsNothing(hits, start, pieces, room);
    } else {
      var at := start + |pieces[0].noise|;
      var next := at + |pieces[0].text|;
      FindsTheRest(hits, next, pieces[1..], room - 1);
      SkipMisses(hits, start, at, room);
      FindsFirst(hits, start, Span(at, next, pieces[0].obj), pieces, room);
    }
  }

  /** The output cut at its first object. */
  lemma OutputFrom(codec: Codec, b: string, start: nat, pieces: seq<Piece>, tail: string)
    requires pieces != [] && AllPrinted(codec, pieces) && start <= |b| && b[start..] == Output(pieces, tail)
    ensures AllPrinted(codec, pieces[1..])
    ensures var at := start + |pieces[0].noise|; var next := at + |pieces[0].text|;
            && at < next <= |b| && b[next..] == Output(pieces[1..], tail)
            && (forall p :: start <= p < at ==> HitsOf(codec, b)[p].Miss?)
            && HitsOf(codec, b)[at] == Hit(pieces[0].obj, next)
  {
    var rest := Output(pieces[1..], tail);
    var at := start + |pieces[0].noise|;
    assert PrintedAfterNoise(codec, pieces[0]) && DecodesBefore(codec, pieces[0].text, pieces[0].obj, rest);
    CutAt(b, start, pieces[0].noise + pieces[0].text, rest);
    CutAt(b, start, pieces[0].noise, pieces[0].text + rest);
    assert b[at] == (pieces[0].text + rest)[0];
    assert HitsOf(codec, b)[at] == HitAt(codec, b, at);
    NoiseMisses(codec, b, start, at);
  }

  lemma CutAt(b: string, start: nat, first: string, rest: string)
    requires start <= |b| && b[start..] == first + rest
    ensures start + |first| <= |b| && b[start..start + |first|] == first && b[start + |first|..] == rest
  {
    assert b[start..start + |first|] == b[start..][..|first|];
    assert b[start + |first|..] == b[start..][|first|..];
  }

  lemma {:induction false} OutputLaid(codec: Codec, b: string, start: nat, pieces: seq<Piece>, tail: string)
    requires '{' !in tail && AllPrinted(codec, pieces)
    requires start <= |b| && b[start..] == Output(pieces, tail)
    ensures Laid(HitsOf(codec, b), start, pieces)
    decreases |pieces|
  {
    if pieces == [] {
      assert b[start..|b|] == b[start..];
      NoiseMisses(codec, b, start, |b|);
    } else {
      OutputFrom(codec, b, start, pieces, tail);
      OutputLaid(codec, b, start + |pieces[0].noise| + |pieces[0].text|, pieces[1..], tail);
    }
  }

  /** Objects printed between stretches of noise without braces are all found, in order, and nothing else
      is, up to the limit on their number. */
  lemma FindsAllPrinted(codec: Codec, pieces: seq<Piece>, tail: string)
    requires Consumes(codec) && '{' !in tail && AllPrinted(codec, pieces)
    ensures ScannedObjects(codec, Output(pieces, tail)) == ObjectsOf(pieces)[..if |pieces| < 64 then |pieces| else 64]
  {
    var b := Output(pieces, tail);
    assert b[0..] == b;
    OutputLaid(codec, b, 0, pieces, tail);
    HitsForward(codec, b);
    FindsTheRest(HitsOf(codec, b), 0, pieces, MAX_OBJECTS);
  }

  // ---- when only top-level objects are returned ----

  /** The text before `limit` read as objects with noise between them that holds no brace. */
  ghost predicate Reading(codec: Codec, b: string, limit: nat, spans: seq<Span<Object>>) {
    && |spans| <= MAX_OBJECTS
    && (forall i :: 0 <= i < |spans| ==> IsHit(HitsOf(codec, b), spans[i]) && spans[i].at < limit)
    && (forall i, j :: 0 <= i < j < |spans| ==> spans[i].end <= spans[j].at)
    && (forall p: nat :: BraceBefore(b, limit, p) ==>
          Covered(spans, p) || (|spans| == MAX_OBJECTS && AllBefore(spans, p)))
  }

  ghost predicate Unreadable(codec: Codec, b: string, limit: nat) {
    forall spans :: !Reading(codec, b, limit, spans)
  }

  predicate BraceBefore(b: string, limit: nat, p: nat) {
    p < limit && p < |b| && b[p] == '{'
  }

  /** A brace before `limit` and within the room that is in none of the spans and starts no object. */
  ghost predicate Stray(codec: Codec, b: string, limit: nat, spans: seq<Span<Object>>, p: nat) {
    && BraceBefore(b, limit, p) && codec.decode(b[p..]) == None
    && !Covered(spans, p) && !(|spans| == MAX_OBJECTS && AllBefore(spans, p))
  }

  /** The hits before a limit. */
  function UpTo<O>(hits: seq<Hit<O>>, limit: nat): (r: seq<Hit<O>>)
    ensures |r| == |hits|
  {
    seq(|hits|, p requires 0 <= p < |hits| => if p < limit then hits[p] else Miss)
  }

  /** The scan of the hits before a limit is the scan's own beginning. */
  lemma {:induction false} ScanUpTo<O>(hits: seq<Hit<O>>, limit: nat, start: nat, room: nat)
    requires Forward(hits)
    ensures Forward(UpTo(hits, limit)) && Scan(UpTo(hits, limit), start, room) <= Scan(hits, start, room)
    ensures var k := |Scan(UpTo(hits, limit), start, room)|; var all := Scan(hits, start, room);
            (forall i :: 0 <= i < k ==> all[i].at < limit) && (forall i :: k <= i < |all| ==> limit <= all[i].at)
    decreases |hits| - start
  {
    var early := UpTo(hits, limit);
    assert Forward(early);
    if room == 0 || start >= |hits| {
    } else if start >= limit {
      SkipMisses(early, start, |hits|, room);
      ScanGreedy(hits, start, room);
    } else if hits[start].Miss? {
      ScanUpTo(hits, limit, start + 1, room);
    } else {
      ScanUpTo(hits, limit, hits[start].end, room - 1);
    }
  }

  /** Every such reading consists of the spans of the scan that start before the limit. */
  lemma ReadingIsScan(codec: Codec, b: string, limit: nat, spans: seq<Span<Object>>)
    requires Consumes(codec) && Reading(codec, b, limit, spans)
    ensures Forward(HitsOf(codec, b)) && Forward(UpTo(HitsOf(codec, b), limit))
    ensures spans == Scan(UpTo(HitsOf(codec, b), limit), 0, MAX_OBJECTS)
  {
    HitsForward(codec, b);
    var early := UpTo(HitsOf(codec, b), limit);
    forall p: nat | HitFrom(early, 0, p) ensures Covered(spans, p) || (|spans| == MAX_OBJECTS && AllBefore(spans, p)) {
      assert HitsOf(codec, b)[p] == HitAt(codec, b, p);
      assert BraceBefore(b, limit, p);
    }
    GreedyUnique(early, 0, MAX_OBJECTS, spans);
  }

  /** Without a stray brace the spans found before the limit are such a reading. */
  lemma NoStrayReads(codec: Codec, b: string, limit: nat, spans: seq<Span<Object>>)
    requires Consumes(codec) && Forward(UpTo(HitsOf(codec, b), limit))
    requires spans == Scan(UpTo(HitsOf(codec, b), limit), 0, MAX_OBJECTS)
    requires forall p: nat :: !Stray(codec, b, limit, spans, p)
    ensures Reading(codec, b, limit, spans)
  {
    var hits := HitsOf(codec, b);
    var early := UpTo(hits, limit);
    ScanGreedy(early, 0, MAX_OBJECTS);
    forall i | 0 <= i < |spans| ensures IsHit(hits, spans[i]) && spans[i].at < limit {
      assert IsHit(early, spans[i]);
    }
    forall p: nat | BraceBefore(b, limit, p)
      ensures Covered(spans, p) || (|spans| == MAX_OBJECTS && AllBefore(spans, p))
    {
      assert !Stray(codec, b, limit, spans, p);
      assert hits[p] == HitAt(codec, b, p);
      assert codec.decode(b[p..]).Some? ==> HitFrom(early, 0, p);
    }
  }

  /** The objects returned before a limit are the top-level ones exactly when no undecodable brace before
      it lies outside them. Otherwise the text up to there has no top-level reading at all. */
  lemma TopLevelExactly(codec: Codec, b: string, limit: nat)
    requires Consumes(codec)
    ensures Forward(HitsOf(codec, b)) && Forward(UpTo(HitsOf(codec, b), limit))
    ensures var found := Scan(UpTo(HitsOf(codec, b), limit), 0, MAX_OBJECTS);
            && found <= Scan(HitsOf(codec, b), 0, MAX_OBJECTS)
            && (forall spans :: Reading(codec, b, limit, spans) ==> spans == found)
            && (Reading(codec, b, limit, found) <==> forall p: nat :: !Stray(codec, b, limit, found, p))
  {
    HitsForward(codec, b);
    ScanUpTo(HitsOf(codec, b), limit, 0, MAX_OBJECTS);
    var found := Scan(UpTo(HitsOf(codec, b), limit), 0, MAX_OBJECTS);
    forall spans | Reading(codec, b, limit, spans) ensures spans == found {
      ReadingIsScan(codec, b, limit, spans);
    }
    if forall p: nat :: !Stray(codec, b, limit, found, p) {
      NoStrayReads(codec, b, limit, found);
    }
  }

  /** An undecodable brace that no object reaches over admits no reading. */
  lemma StrayIsUnreadable(codec: Codec, b: string, limit: nat, p: nat)
    requires Consumes(codec) && BraceBefore(b, limit, p) && codec.decode(b[p..]) == None
    requires forall q :: 0 <= q < p ==> HitsOf(codec, b)[q].Miss?
    ensures Unreadable(codec, b, limit)
  {
    var hits := HitsOf(codec, b);
    HitsForward(codec, b);
    assert hits[p] == HitAt(codec, b, p);
    forall spans: seq<Span<Object>> ensures !Reading(codec, b, limit, spans) {
      if forall i :: 0 <= i < |spans| ==> IsHit(hits, spans[i]) {
        assert forall i :: 0 <= i < |spans| ==> p < spans[i].at && hits[spans[i].at].Hit?;
        assert !Covered(spans, p);
        assert |spans| == MAX_OBJECTS ==> spans[0].end > p;
      }
    }
  }

  /** The comment on decodeJSONObjects promises top-level objects. After a brace that does not start a
      decodable object the scan resumes one character later, so an object nested in a broken one is
      returned. */
  lemma NestedInBrokenIsReturned(codec: Codec, inner: string, o: Object)
    requires Consumes(codec) && inner != "" && inner[0] == '{'
    requires codec.decode("{" + inner) == None && codec.decode(inner) == Some((o, |inner|))
    ensures var hits := HitsOf(codec, "{" + inner);
            Forward(hits) && Scan(hits, 0, MAX_OBJECTS) == [Span(1, 1 + |inner|, o)]
    ensures Unreadable(codec, "{" + inner, 1 + |inner|)
  {
    var b := "{" + inner;
    var hits := HitsOf(codec, b);
    HitsForward(codec, b);
    assert b[0..] == b && b[1..] == inner && b[1] == inner[0];
    assert hits[0] == HitAt(codec, b, 0) && hits[1] == HitAt(codec, b, 1);
    SkipMisses(hits, 0, 1, MAX_OBJECTS);
    assert Scan(hits, |b|, MAX_OBJECTS - 1) == [];
    StrayIsUnreadable(codec, b, |b|, 0);
  }

  /** A codec that knows the empty object and nothing else. */
  function EmptyObjects(): Codec {
    Codec(s => if |s| >= 2 && s[0] == '{' && s[1] == '}' then Some((map[], 2)) else None, s => None, s => None)
  }

  /** In "{{}" the promise is broken: the object at offset 1 is returned although no reading of the text
      as noise without braces and whole objects exists. */
  lemma BrokenOuter()
    ensures Consumes(EmptyObjects()) && ScannedObjects(EmptyObjects(), "{{}") == [map[]]
    ensures Unreadable(EmptyObjects(), "{{}", 3)
  {
    NestedInBrokenIsReturned(EmptyObjects(), "{}", map[]);
    assert "{" + "{}" == "{{}";
  }

  // ---- the strict part ----

  predicate IsNull(raw: string) {
    TrimSpace(raw) == "" || TrimSpace(raw) == "null"
  }

  /** "null" with any space around it, or space alone. */
  ghost predicate NullText(raw: string) {
    exists a, b :: Blank(a) && Blank(b) && (raw == a + "null" + b || raw == a + b)
  }

  lemma NullMeaning(raw: string)
    ensures IsNull(raw) <==> NullText(raw)
  {
    if IsNull(raw) {
      var a, b := TrimSpaceParts(raw);
      assert a + "" + b == a + b;
    }
    if NullText(raw) {
      var a, b :| Blank(a) && Blank(b) && (raw == a + "null" + b || raw == a + b);
      DroppedCharacters('n');
      DroppedCharacters('l');
      assert NoEdgeSpace("null");
      TrimSpaceOf(a, "null", b);
      TrimSpaceOf(a, "", b);
      assert a + "" + b == a + b;
    }
  }

  /** Index of the last object that carries the key, or -1. */
  function LastWith(objs: seq<Object>, key: string): (r: int)
    ensures -1 <= r < |objs|
    ensures r >= 0 ==> key in objs[r]
    ensures forall i :: r < i < |objs| ==> key !in objs[i]
  {
    if objs == [] then -1
    else if key in objs[|objs| - 1] then |objs| - 1
    else LastWith(objs[..|objs| - 1], key)
  }

  function Payload(codec: Codec, so: string): Result<seq<RawFinding>, EnvelopeError> {
    if IsNull(so) then Err(NullStructuredOutput)
    else match codec.asObject(so)
      case None => Err(NotAnObject)
      case Some(payload) =>
        if "findings" !in payload then Err(NoFindings)
        else if IsNull(payload["findings"]) then Err(NullFindings)
        else match codec.asFindings(payload["findings"])
          case None => Err(NotAFindingsArray)
          case Some(findings) => Ok(findings)
  }

  ghost function Parse(codec: Codec, stdout: string): Result<seq<RawFinding>, EnvelopeError>
    requires Consumes(codec)
  {
    var objs := ScannedObjects(codec, stdout);
    if objs == [] then Err(NoEnvelope)
    else
      var i := LastWith(objs, "structured_output");
      if i < 0 then Err(NoStructuredOutput)
      else Payload(codec, objs[i]["structured_output"])
  }

  method ParseEnvelope(codec: Codec, stdout: string) returns (r: Result<seq<RawFinding>, EnvelopeError>)
    requires Consumes(codec)
    ensures r == Parse(codec, stdout)
  {
    var objs := DecodeObjects(codec, stdout);
    if |objs| == 0 {
      return Err(NoEnvelope);
    }
    var i := FindLast(objs, "structured_output");
    if i < 0 {
      return Err(NoStructuredOutput);
    }
    r := Payload(codec, objs[i]["structured_output"]);
  }

  method FindLast(objs: seq<Object>, key: string) returns (i: int)
    ensures i == LastWith(objs, key)
  {
    i := |objs| - 1;
    while i >= 0 && key !in objs[i]
      invariant -1 <= i < |objs|
      invariant LastWith(objs, key) == LastWith(objs[..i + 1], key)
    {
      assert objs[..i + 1][..i] == objs[..i];
      i := i - 1;
    }
  }

  /** Object i is the last of these to carry structured_output, and it is well-formed. */
  predicate ReportsAt(codec: Codec, objs: seq<Object>, i: int, findings: seq<RawFinding>) {
    && 0 <= i < |objs| && "structured_output" in objs[i]
    && (forall j :: i < j < |objs| ==> "structured_output" !in objs[j])
    && var so := objs[i]["structured_output"];
       && !IsNull(so) && codec.asObject(so).Some?
       && var payload := codec.asObject(so).value;
          && "findings" in payload && !IsNull(payload["findings"])
          && codec.asFindings(payload["findings"]) == Some(findings)
  }

  /** The findings a well-formed output reports, for the objects the text holds leftmost and greedily. */
  ghost predicate Reports(codec: Codec, stdout: string, findings: seq<RawFinding>) {
    exists spans, i ::
      Greedy(HitsOf(codec, stdout), 0, MAX_OBJECTS, spans) && ReportsAt(codec, Objects(spans), i, findings)
  }

  lemma PayloadReports(codec: Codec, objs: seq<Object>, i: int, findings: seq<RawFinding>)
    requires i == LastWith(objs, "structured_output")
    ensures (i >= 0 && Payload(codec, objs[i]["structured_output"]) == Ok(findings)) <==>
            ReportsAt(codec, objs, i, findings)
  {
  }

  lemma ReportsAtLast(codec: Codec, objs: seq<Object>, i: int, findings: seq<RawFinding>)
    requires ReportsAt(codec, objs, i, findings)
    ensures i == LastWith(objs, "structured_output")
  {
    var last := LastWith(objs, "structured_output");
    assert i <= last && last <= i;
  }

  /** Fail-closed: parsing succeeds exactly on a well-formed report, and with its findings. */
  lemma ParseMeaning(codec: Codec, stdout: string, findings: seq<RawFinding>)
    requires Consumes(codec)
    ensures Parse(codec, stdout) == Ok(findings) <==> Reports(codec, stdout, findings)
  {
    var hits := HitsOf(codec, stdout);
    HitsForward(codec, stdout);
    var objs := Objects(Scan(hits, 0, MAX_OBJECTS));
    ScanGreedy(hits, 0, MAX_OBJECTS);
    PayloadReports(codec, objs, LastWith(objs, "structured_output"), findings);
    if Reports(codec, stdout, findings) {
      var ss, i :| Greedy(hits, 0, MAX_OBJECTS, ss) && ReportsAt(codec, Objects(ss), i, findings);
      GreedyUnique(hits, 0, MAX_OBJECTS, ss);
      ReportsAtLast(codec, objs, i, findings);
    }
  }

  /** Object i is the last to carry structured_output. */
  ghost predicate LastCarrier(objs: seq<Object>, i: nat) {
    i < |objs| && "structured_output" in objs[i] && forall j :: i < j < |objs| ==> "structured_output" !in objs[j]
  }

  lemma NoLaterCarrier(objs: seq<Object>, i: nat)
    requires LastCarrier(objs, i)
    ensures LastWith(objs, "structured_output") == i
  {
  }

  /** Which object is read, and what happens if there is none. */
  lemma ParseErrors(codec: Codec, stdout: string, i: nat)
    requires Consumes(codec)
    ensures var objs := ScannedObjects(codec, stdout);
            && (objs == [] ==> Parse(codec, stdout) == Err(NoEnvelope))
            && (objs != [] && (forall j :: 0 <= j < |objs| ==> "structured_output" !in objs[j]) ==>
                  Parse(codec, stdout) == Err(NoStructuredOutput))
            && (LastCarrier(objs, i) ==> Parse(codec, stdout) == Payload(codec, objs[i]["structured_output"]))
  {
    var objs := ScannedObjects(codec, stdout);
    if LastCarrier(objs, i) {
      NoLaterCarrier(objs, i);
    }
  }

  /** What is read from it, each error by the first check that fails. */
  lemma PayloadErrors(codec: Codec, so: string)
    ensures Payload(codec, so) == Err(NullStructuredOutput) <==> NullText(so)
    ensures Payload(codec, so) == Err(NotAnObject) <==> !NullText(so) && codec.asObject(so) == None
    ensures !NullText(so) && codec.asObject(so).Some? ==>
              var payload := codec.asObject(so).value;
              && (Payload(codec, so) == Err(NoFindings) <==> "findings" !in payload)
              && ("findings" in payload ==>
                    && (Payload(codec, so) == Err(NullFindings) <==> NullText(payload["findings"]))
                    && (!NullText(payload["findings"]) ==>
                          Payload(codec, so) ==
                          match codec.asFindings(payload["findings"])
                            case None => Err(NotAFindingsArray)
                            case Some(findings) => Ok(findings)))
  {
    NullMeaning(so);
    if codec.asObject(so).Some? && "findings" in codec.asObject(so).value {
      NullMeaning(codec.asObject(so).value["findings"]);
    }
  }

  /** Whatever the decoder makes of "null": a null payload and null findings are errors, never an empty
      report. */
  lemma NullIsNoReport(codec: Codec, stdout: string, i: nat)
    requires Consumes(codec) && LastCarrier(ScannedObjects(codec, stdout), i)
    ensures var so := ScannedObjects(codec, stdout)[i]["structured_output"];
            if NullText(so) then Parse(codec, stdout) == Err(NullStructuredOutput)
            else
              var payload := codec.asObject(so);
              (payload.Some? && "findings" in payload.value && NullText(payload.value["findings"])) ==>
                Parse(codec, stdout) == Err(NullFindings)
  {
    ParseErrors(codec, stdout, i);
    PayloadErrors(codec, ScannedObjects(codec, stdout)[i]["structured_output"]);
  }
}
