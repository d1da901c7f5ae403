/** Socket writes over a link with little buffering: the chunked non-blocking writer of the
    benchmark firmware (benchmarking/firmware/src/main.c, net_write) and the single-chunk writer
    of the main firmware (firmware/src/main.c, net_write). */
module NetWrite {
  import opened Numbers

  /** The stack's answer to one send and the time it took. An accepted count is cut to what was
      offered. `timeout` tells EAGAIN, EWOULDBLOCK and ETIMEDOUT from the other transient errors;
      `pause` is how long a writer that tries again sleeps first. */
  datatype Reply =
    | Accepted(n: nat, elapsed: nat)
    | Transient(timeout: bool, elapsed: nat, pause: Positive)
    | Fatal(elapsed: nat)

  datatype WriteResult = Wrote(n: nat) | BadArgument | NetworkError | TimeoutError

  datatype Stop = Finished | Refused | ZeroSend | TimedOut

  /** `total` bytes delivered after consulting the stack `asked` times. */
  datatype Progress = Progress(total: nat, asked: nat, now: int, stop: Stop)

  /** What the write loop does against a given stack, from `total` bytes already delivered. */
  function Drive(replies: nat -> Reply, asked: nat, now: int, deadline: int, len: nat, total: nat, chunk: Positive): (p: Progress)
    ensures total <= len ==> total <= p.total <= len
    decreases len - total, Max(0, deadline - now)
  {
    if total >= len then Progress(total, asked, now, Finished)
    else match replies(asked)
      case Accepted(n, elapsed) =>
        var took := Min(n, Min(len - total, chunk));
        if took == 0 then Progress(total, asked + 1, now + elapsed, ZeroSend)
        else Drive(replies, asked + 1, now + elapsed, deadline, len, total + took, chunk)
      case Transient(_, elapsed, pause) =>
        if now + elapsed < deadline then Drive(replies, asked + 1, now + elapsed + pause, deadline, len, total, chunk)
        else Progress(total, asked + 1, now + elapsed, TimedOut)
      case Fatal(elapsed) => Progress(total, asked + 1, now + elapsed, Refused)
  }

  function ResultOf(p: Progress): WriteResult {
    match p.stop
    case Finished => Wrote(p.total)
    case TimedOut => NetworkError
    case _ => if p.total > 0 then Wrote(p.total) else NetworkError
  }

  class Socket {
    var fd: int
    var now: int
    var asked: nat
    var wire: seq<Byte>
    ghost var offers: seq<nat>
    const replies: nat -> Reply

    constructor (fd: int, replies: nat -> Reply)
      ensures this.fd == fd && this.replies == replies && wire == [] && asked == 0 && offers == []
    {
      this.fd, this.replies := fd, replies;
      now, asked, wire, offers := 0, 0, [], [];
    }

    /** One send of `len` bytes of `buf` from `from`. */
    method Send(buf: array<Byte>, from: nat, len: nat) returns (reply: Reply, took: nat)
      requires from + len <= buf.Length
      modifies this`now, this`asked, this`wire, this`offers
      ensures reply == replies(old(asked)) && asked == old(asked) + 1
      ensures took == if reply.Accepted? then Min(reply.n, len) else 0
      ensures wire == old(wire) + buf[from..from + took]
      ensures now == old(now) + reply.elapsed
      ensures offers == old(offers) + [len]
    {
      reply := replies(asked);
      took := if reply.Accepted? then Min(reply.n, len) else 0;
      asked := asked + 1;
      wire := wire + buf[from..from + took];
      now := now + reply.elapsed;
      offers := offers + [len];
    }
  }

  predicate Usable(sock: Socket?, buf: array?<Byte>, len: int)
    reads sock
  {
    sock != null && sock.fd >= 0 && buf != null && len > 0
  }

  /** The chunked writer: exactly the first `total` bytes go out, whatever the stack answers, and
      no send offers more than `chunk` bytes. */
  method ChunkedWrite(sock: Socket?, buf: array?<Byte>, len: int, timeout: int, chunk: Positive)
    returns (r: WriteResult)
    requires buf != null ==> len <= buf.Length
    modifies if sock != null then {sock} else {}
    ensures !old(Usable(sock, buf, len)) ==> r == BadArgument && (sock != null ==> unchanged(sock))
    ensures old(Usable(sock, buf, len)) ==>
      var p := Drive(sock.replies, old(sock.asked), old(sock.now), old(sock.now) + timeout, len, 0, chunk);
      && r == ResultOf(p)
      && sock.wire == old(sock.wire) + buf[..p.total]
      && sock.asked == p.asked && sock.now == p.now && sock.fd == old(sock.fd)
      && old(sock.offers) <= sock.offers
      && forall k :: |old(sock.offers)| <= k < |sock.offers| ==> 0 < sock.offers[k] <= chunk
  {
    if sock == null || sock.fd < 0 || buf == null || len <= 0 {
      return BadArgument;
    }
    var deadline := sock.now + timeout;
    var total := 0;
    ghost var p := Drive(sock.replies, sock.asked, sock.now, deadline, len, 0, chunk);
    while total < len
      invariant 0 <= total <= len && sock.fd == old(sock.fd)
      invariant sock.wire == old(sock.wire) + buf[..total]
      invariant Drive(sock.replies, sock.asked, sock.now, deadline, len, total, chunk) == p
      invariant old(sock.offers) <= sock.offers
      invariant forall k :: |old(sock.offers)| <= k < |sock.offers| ==> 0 < sock.offers[k] <= chunk
      decreases len - total, Max(0, deadline - sock.now)
    {
      var chunkLen := Min(len - total, chunk);
      var reply, took := sock.Send(buf, total, chunkLen);
      if reply.Transient? {
        if sock.now < deadline {
          sock.now := sock.now + reply.pause;
          continue;
        }
        return NetworkError;
      }
      if reply.Fatal? || took == 0 {
        return if total > 0 then Wrote(total) else NetworkError;
      }
      assert buf[..total + took] == buf[..total] + buf[total..total + took];
      total := total + took;
    }
    return Wrote(total);
  }

  /** A reported count is the whole buffer unless a fatal error or an empty send cut it short; a
      timeout is reported as an error even after partial progress; and the loop ends within one
      answer per byte and per millisecond left. */
  lemma {:induction false} DriveOutcome(replies: nat -> Reply, asked: nat, now: int, deadline: int, len: nat, total: nat, chunk: Positive)
    requires total <= len
    ensures
      var p := Drive(replies, asked, now, deadline, len, total, chunk);
      && total <= p.total <= len
      && (p.stop == Finished <==> p.total == len)
      && (p.stop == TimedOut ==> p.now >= deadline)
      && asked <= p.asked <= asked + (len - total) + Max(0, deadline - now) + 1
      && (p.stop == Refused ==> p.asked > asked && replies(p.asked - 1).Fatal?)
      && (p.stop == ZeroSend ==> p.asked > asked && replies(p.asked - 1).Accepted? && replies(p.asked - 1).n == 0)
      && (p.stop == TimedOut ==> p.asked > asked && replies(p.asked - 1).Transient?)
    decreases len - total, Max(0, deadline - now)
  {
    if total == len {
    } else {
      match replies(asked)
      case Accepted(n, elapsed) =>
        var took := Min(n, Min(len - total, chunk));
        if took > 0 { DriveOutcome(replies, asked + 1, now + elapsed, deadline, len, total + took, chunk); }
      case Transient(_, elapsed, pause) =>
        if now + elapsed < deadline { DriveOutcome(replies, asked + 1, now + elapsed + pause, deadline, len, total, chunk); }
      case Fatal(_) =>
    }
  }

  /** A caller that gets a count below the length knows why. */
  lemma ShortCountMeansFailure(replies: nat -> Reply, asked: nat, now: int, timeout: int, len: nat, chunk: Positive)
    requires len > 0
    ensures
      var p := Drive(replies, asked, now, now + timeout, len, 0, chunk);
      && (ResultOf(p) == Wrote(len) <==> p.stop == Finished)
      && (forall n: nat :: ResultOf(p) == Wrote(n) && n < len ==> 0 < n == p.total && p.stop in {Refused, ZeroSend})
      && (ResultOf(p) == NetworkError <==> p.stop == TimedOut || (p.total == 0 && p.stop in {Refused, ZeroSend}))
  {
    DriveOutcome(replies, asked, now, now + timeout, len, 0, chunk);
  }

  const IPSP_WRITE_CHUNK: Positive := 64

  /** The single-chunk writer, applied to the bytes of `buf` from `from` on. */
  method SingleWrite(sock: Socket, buf: array<Byte>, from: nat, len: int) returns (r: WriteResult)
    requires from + Max(0, len) <= buf.Length
    modifies sock
    ensures sock.fd == old(sock.fd)
    ensures !old(Usable(sock, buf, len)) ==> r == BadArgument && unchanged(sock)
    ensures old(Usable(sock, buf, len)) ==>
      var reply := sock.replies(old(sock.asked));
      && sock.asked == old(sock.asked) + 1
      && (r.Wrote? || r == TimeoutError || r == NetworkError)
      && (r.Wrote? <==> reply.Accepted?)
      && (r.Wrote? ==> r.n == Min(reply.n, Min(len, IPSP_WRITE_CHUNK)) && sock.wire == old(sock.wire) + buf[from..from + r.n])
      && (!r.Wrote? ==> sock.wire == old(sock.wire))
      && (r == TimeoutError <==> reply.Transient? && reply.timeout)
  {
    if sock.fd < 0 || len <= 0 {
      return BadArgument;
    }
    var chunkLen := Min(len, IPSP_WRITE_CHUNK);
    var reply, took := sock.Send(buf, from, chunkLen);
    if !reply.Accepted? {
      return if reply.Transient? && reply.timeout then TimeoutError else NetworkError;
    }
    return Wrote(took);
  }

  /** The offset a caller reaches that keeps writing the rest, retrying up to `patience` timeouts. */
  function Singles(replies: nat -> Reply, asked: nat, len: nat, offset: nat, patience: nat): nat
    decreases len - offset, patience
  {
    if offset >= len then offset
    else match replies(asked)
      case Accepted(n, _) =>
        var took := Min(n, Min(len - offset, IPSP_WRITE_CHUNK));
        if took == 0 then offset else Singles(replies, asked + 1, len, offset + took, patience)
      case Transient(timeout, _, _) =>
        if timeout && patience > 0 then Singles(replies, asked + 1, len, offset, patience - 1) else offset
      case Fatal(_) => offset
  }

  /** That caller: at every point exactly the bytes before its offset are on the wire. */
  method WriteInSingles(sock: Socket, buf: array<Byte>, patience: nat) returns (offset: nat, done: bool)
    requires sock.fd >= 0
    modifies sock
    ensures offset == Singles(sock.replies, old(sock.asked), buf.Length, 0, patience) <= buf.Length
    ensures sock.wire == old(sock.wire) + buf[..offset] && (done <==> offset == buf.Length)
  {
    offset := 0;
    var left := patience;
    ghost var end := Singles(sock.replies, sock.asked, buf.Length, 0, patience);
    while offset < buf.Length
      invariant offset <= buf.Length && sock.fd >= 0
      invariant sock.wire == old(sock.wire) + buf[..offset]
      invariant Singles(sock.replies, sock.asked, buf.Length, offset, left) == end
      decreases buf.Length - offset, left
    {
      var r := SingleWrite(sock, buf, offset, buf.Length - offset);
      if r == TimeoutError && left > 0 {
        left := left - 1;
        continue;
      }
      if !r.Wrote? || r.n == 0 {
        return offset, false;
      }
      assert buf[..offset + r.n] == buf[..offset] + buf[offset..offset + r.n];
      offset := offset + r.n;
    }
    return offset, true;
  }

  predicate IsTimeout(reply: Reply) { reply.Transient? && reply.timeout }

  function Timeouts(replies: nat -> Reply, from: nat, until: nat): nat
    requires from <= until
    decreases until - from
  {
    if from == until then 0 else (if IsTimeout(replies(from)) then 1 else 0) + Timeouts(replies, from + 1, until)
  }

  /** Bytes the stack is ready to take, one chunk at most an answer. */
  function Taken(replies: nat -> Reply, from: nat, until: nat): nat
    requires from <= until
    decreases until - from
  {
    if from == until then 0
    else (if replies(from).Accepted? then Min(replies(from).n, IPSP_WRITE_CHUNK) else 0) + Taken(replies, from + 1, until)
  }

  /** An answer the caller does not survive: a failure, an empty send, or one timeout too many. */
  predicate Breaks(replies: nat -> Reply, from: nat, k: nat, patience: nat)
    requires from <= k
  {
    match replies(k)
    case Accepted(n, _) => n == 0
    case Transient(timeout, _, _) => !timeout || Timeouts(replies, from, k) >= patience
    case Fatal(_) => true
  }

  /** The caller gets everything the stack takes up to the first answer it does not survive, or
      the whole buffer if that comes first. */
  lemma {:induction false} SinglesInClosedForm(replies: nat -> Reply, asked: nat, len: nat, offset: nat, patience: nat)
    returns (k: nat)
    requires offset <= len
    ensures asked <= k && forall j :: asked <= j < k ==> !Breaks(replies, asked, j, patience)
    ensures Singles(replies, asked, len, offset, patience) == Min(len, offset + Taken(replies, asked, k))
    ensures Singles(replies, asked, len, offset, patience) < len ==> Breaks(replies, asked, k, patience)
    decreases len - offset, patience
  {
    k := asked;
    if offset < len && !Breaks(replies, asked, asked, patience) {
      var reply := replies(asked);
      var took := if reply.Accepted? then Min(reply.n, Min(len - offset, IPSP_WRITE_CHUNK)) else 0;
      var left := if IsTimeout(reply) then patience - 1 else patience;
      k := SinglesInClosedForm(replies, asked + 1, len, offset + took, left);
      forall j | asked <= j <= k ensures j > asked ==>
        (Breaks(replies, asked, j, patience) <==> Breaks(replies, asked + 1, j, left)) {}
    }
  }

  /** So it writes everything if no answer is fatal or empty and timeouts stay within its patience. */
  lemma SinglesFinish(replies: nat -> Reply, asked: nat, len: nat, patience: nat)
    requires forall k :: asked <= k ==> !Breaks(replies, asked, k, patience)
    ensures Singles(replies, asked, len, 0, patience) == len
  {
    var k := SinglesInClosedForm(replies, asked, len, 0, patience);
  }
}
