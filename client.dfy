/** One client session of cmd/mqtt/client.go: its bounded send channel, the
    calls its broker connection is asked to make, one iteration of readPump
    and of writePump, and the per-client broker message handler. Each pump
    iteration is one atomic step. A send that would block reports so and
    changes nothing; a readPump step that blocks on its reply has already
    made its broker calls, and the reply is not kept. */
module Session {
  import opened Text
  import opened Protocol

  /** Capacity of a client's send channel. */
  const SendCapacity: nat := 256

  /** Largest inbound frame the connection accepts. */
  const MaxMessageSize: nat := 512

  /** One attempt at the blocking send `c.send <- m`. */
  datatype SendResult =
    | Sent          // there was room: m is now at the tail of the queue
    | Blocked       // the queue is full: the sender waits, nothing changed
    | SendOnClosed  // the channel is closed: the send panics

  /** What one readPump iteration did after processing the frame. */
  datatype ReadResult =
    | Answered(send: SendResult)  // the reply was handed to the send channel
    | Silent                      // the reply was empty and not sent
    | BrokerPanic                 // a broker call failed and the session panicked

  /** What one writePump iteration puts on the connection. */
  datatype Frame =
    | TextFrame(data: string)  // one text message holding every queued message
    | CloseFrame               // the hub closed the channel: close and stop
    | NoFrame                  // nothing queued: the pump keeps waiting

  /** The text of a coalesced frame: the messages in order, with a newline
      between each two. */
  function Join(msgs: seq<string>): (frame: string)
    requires |msgs| > 0
    ensures |frame| >= |msgs[0]| && frame[..|msgs[0]|] == msgs[0]
    ensures |msgs| > 1 ==> '\n' in frame
  {
    if |msgs| == 1 then msgs[0] else msgs[0] + "\n" + Join(msgs[1..])
  }

  /** A frame's text ends with its last message. */
  lemma {:induction false} JoinEndsWithLast(msgs: seq<string>)
    requires |msgs| > 0
    ensures var last := msgs[|msgs| - 1];
            |Join(msgs)| >= |last| && Join(msgs)[|Join(msgs)| - |last|..] == last
  {
    if |msgs| > 1 {
      JoinEndsWithLast(msgs[1..]);
      var rest := Join(msgs[1..]);
      assert Join(msgs) == (msgs[0] + "\n") + rest;
    }
  }

  /** Appending one more message to a frame extends its text. */
  lemma {:induction false} JoinSnoc(msgs: seq<string>, m: string)
    requires |msgs| > 0
    ensures Join(msgs + [m]) == Join(msgs) + "\n" + m
  {
    if |msgs| == 1 {
      assert msgs + [m] == [msgs[0], m];
    } else {
      assert (msgs + [m])[1..] == msgs[1..] + [m];
      JoinSnoc(msgs[1..], m);
    }
  }

  /** The newline-free pieces of a frame's text, in order. */
  function SplitLines(s: string): (lines: seq<string>)
    ensures |lines| > 0 && Join(lines) == s
    ensures forall i :: 0 <= i < |lines| ==> '\n' !in lines[i]
    decreases |s|
  {
    var c := CutAt(s, '\n');
    if c.found then [c.before] + SplitLines(c.after) else [s]
  }

  /** A newline-free first line is split off at the first newline. */
  lemma SplitLinesCons(a: string, b: string)
    requires '\n' !in a
    ensures SplitLines(a + ['\n'] + b) == [a] + SplitLines(b)
  {
    CutAtFirst(a, '\n', b);
  }

  /** A frame made of newline-free messages splits back into exactly those
      messages. */
  lemma {:induction false} SplitJoin(msgs: seq<string>)
    requires |msgs| > 0
    requires forall i :: 0 <= i < |msgs| ==> '\n' !in msgs[i]
    ensures SplitLines(Join(msgs)) == msgs
  {
    if |msgs| > 1 {
      var rest := Join(msgs[1..]);
      assert Join(msgs) == msgs[0] + ['\n'] + rest;
      SplitLinesCons(msgs[0], rest);
      SplitJoin(msgs[1..]);
    }
  }

  class Client {
    /** The messages buffered in the send channel, oldest first. */
    var send: seq<string>
    /** Whether the send channel has been closed. */
    var closed: bool
    /** The calls made on this client's broker connection, in order. */
    var brokerCalls: seq<BrokerCall>

    ghost predicate Valid()
      reads this
    {
      |send| <= SendCapacity
    }

    /** A fresh session: an empty, open send channel and no broker calls. */
    constructor ()
      ensures Valid() && send == [] && !closed && brokerCalls == []
    {
      send := [];
      closed := false;
      brokerCalls := [];
    }

    /** A send that never blocks (a select with a default case): it succeeds
        exactly when the channel has room. */
    method TrySend(m: string) returns (ok: bool)
      requires Valid() && !closed
      modifies this`send
      ensures Valid()
      ensures ok <==> |old(send)| < SendCapacity
      ensures send == if ok then old(send) + [m] else old(send)
    {
      ok := |send| < SendCapacity;
      if ok {
        send := send + [m];
      }
    }

    /** One attempt at the blocking send `c.send <- m`. */
    method Send(m: string) returns (r: SendResult)
      requires Valid()
      modifies this`send
      ensures Valid()
      ensures r == if closed then SendOnClosed
                   else if |old(send)| < SendCapacity then Sent
                   else Blocked
      ensures send == if r == Sent then old(send) + [m] else old(send)
    {
      if closed {
        r := SendOnClosed;
      } else if |send| < SendCapacity {
        send := send + [m];
        r := Sent;
      } else {
        r := Blocked;
      }
    }

    /** close(c.send): closing an already closed channel panics, so a caller
        must know the channel is open. */
    method Close()
      requires !closed
      modifies this`closed
      ensures closed
    {
      closed := true;
    }

    /** `<-c.send` on a channel holding messages: buffered messages are
        delivered, oldest first, even after the channel is closed. */
    method Receive() returns (m: string)
      requires send != []
      modifies this`send
      ensures m == old(send)[0] && send == old(send)[1..]
    {
      m := send[0];
      send := send[1..];
    }

    /** One iteration of readPump on a frame that arrived: normalise it,
        process the command (the broker's token reports an error exactly when
        brokerFails), record the broker calls and send the reply. */
    method ReadStep(frame: string, brokerFails: bool) returns (r: ReadResult)
      requires Valid() && |frame| <= MaxMessageSize
      modifies this`send, this`brokerCalls
      ensures Valid()
      ensures var o := ProcessWsMsg(Normalize(frame), brokerFails);
              && brokerCalls == old(brokerCalls) + o.calls
              && (o.Panicked? ==> r == BrokerPanic && send == old(send))
              && (o.Replied? ==>
                    && r.Answered?
                    && r.send == (if closed then SendOnClosed
                                  else if |old(send)| < SendCapacity then Sent
                                  else Blocked)
                    && send == if r.send == Sent then old(send) + [o.reply] else old(send))
    {
      var message := Normalize(frame);
      var o := ProcessWsMsg(message, brokerFails);
      brokerCalls := brokerCalls + o.calls;
      if o.Panicked? {
        return BrokerPanic;
      }
      if o.reply != "" {
        var s := Send(o.reply);
        r := Answered(s);
      } else {
        r := Silent;
      }
    }

    /** The per-client broker message handler: relays the message as a `rcv`
        line through the blocking send. */
    method OnMessage(topic: string, payload: string) returns (r: SendResult)
      requires Valid()
      modifies this`send
      ensures Valid()
      ensures r == if closed then SendOnClosed
                   else if |old(send)| < SendCapacity then Sent
                   else Blocked
      ensures send == if r == Sent then old(send) + [RcvLine(topic, payload)] else old(send)
    {
      r := Send(RcvLine(topic, payload));
    }

    /** One iteration of writePump on the send channel: the first message
        and the n messages queued behind it at that moment go out as one text
        frame, separated by newlines; a closed, drained channel yields the
        close frame. */
    method WriteStep() returns (f: Frame)
      requires Valid()
      modifies this`send
      ensures Valid()
      ensures old(send) == [] ==> send == [] && f == if closed then CloseFrame else NoFrame
      ensures old(send) != [] ==> send == [] && f == TextFrame(Join(old(send)))
    {
      if send == [] {
        f := if closed then CloseFrame else NoFrame;
        return;
      }
      ghost var queued := send;
      var message := Receive();
      var data := message;
      var n := |send|;
      var i := 0;
      while i < n
        invariant 0 <= i <= n == |queued| - 1
        invariant send == queued[1 + i..]
        invariant data == Join(queued[..1 + i])
      {
        var next := Receive();
        JoinSnoc(queued[..1 + i], next);
        assert queued[..1 + i] + [next] == queued[..2 + i];
        data := data + "\n" + next;
        i := i + 1;
      }
      assert queued[..1 + n] == queued;
      f := TextFrame(data);
    }
  }

  /** A frame sent to a client whose queue holds only replies to commands
      splits back into those replies, in the order they were queued. */
  lemma RepliesSurviveCoalescing(frames: seq<string>, brokerFails: bool)
    requires |frames| > 0
    requires forall i :: 0 <= i < |frames| ==> ProcessWsMsg(Normalize(frames[i]), brokerFails).Replied?
    ensures var replies := seq(|frames|, i requires 0 <= i < |frames| =>
                               ProcessWsMsg(Normalize(frames[i]), brokerFails).reply);
            SplitLines(Join(replies)) == replies
  {
    var replies := seq(|frames|, i requires 0 <= i < |frames| =>
                       ProcessWsMsg(Normalize(frames[i]), brokerFails).reply);
    forall i | 0 <= i < |replies|
      ensures '\n' !in replies[i]
    {
      ReplyHasNoNewline(Normalize(frames[i]), brokerFails);
    }
    SplitJoin(replies);
  }
}
