/** The text command protocol of a client session (cmd/mqtt/client.go):
    the normalisation of an inbound frame, processWsMsg with its two verbs,
    publish, and the line a broker message is relayed as. The broker is
    reduced to the calls it is asked to make; whether a call's token reports
    an error is a parameter. */
module Protocol {
  import opened Text

  /** The QoS level of every broker call the session makes. */
  const BrokerQoS: nat := 1

  const NotFoundReply: string := "publish message not found"
  const UnrecognizedReply: string := "err unrecognized command"

  /** A call the session makes on its broker connection. */
  datatype BrokerCall =
    | SubscribeCall(topic: string, qos: nat)
    | PublishCall(topic: string, qos: nat, retained: bool, payload: string)

  /** What one command leads to: the reply for the WebSocket client with the
      broker calls made on the way, or a panic raised after a broker call's
      token reported an error (the call itself was made). */
  datatype Outcome =
    | Replied(reply: string, calls: seq<BrokerCall>)
    | Panicked(calls: seq<BrokerCall>)

  /** The inbound normalisation of readPump: newlines become spaces, then the
      white space at both ends is trimmed. */
  function Normalize(frame: string): (r: string)
    ensures '\n' !in r
    ensures IsTrimmed(r)
    ensures |r| <= |frame|
  {
    TrimSpaceKeeps(ReplaceNewlines(frame), '\n');
    TrimSpace(ReplaceNewlines(frame))
  }

  /** processWsMsg trims its argument again; on a normalised frame that
      changes nothing. */
  lemma NormalizeThenTrim(frame: string)
    ensures TrimSpace(Normalize(frame)) == Normalize(frame)
  {
    TrimmedIsFixed(Normalize(frame));
  }

  /** publish: the trimmed parameters are split at their first space into
      topic and payload; without a space there is nothing to publish. The
      QoS and retain arguments are not used: the broker call always has QoS 1
      and no retain flag. */
  function Publish(params: string, qos: nat, retain: bool, brokerFails: bool): (o: Outcome)
    ensures ' ' !in TrimSpace(params) <==> o == Replied(NotFoundReply, [])
    ensures ' ' in TrimSpace(params) ==>
      && |o.calls| == 1 && o.calls[0].PublishCall?
      && TrimSpace(params) == o.calls[0].topic + " " + o.calls[0].payload
      && ' ' !in o.calls[0].topic
      && o.calls[0].qos == BrokerQoS && !o.calls[0].retained
      && (o.Panicked? <==> brokerFails)
      && (o.Replied? ==> o.reply == "pub " + o.calls[0].topic + " " + o.calls[0].payload)
  {
    var msg := TrimSpace(params);
    var c := CutAt(msg, ' ');
    if !c.found then Replied(NotFoundReply, [])
    else
      var calls := [PublishCall(c.before, BrokerQoS, false, c.after)];
      if brokerFails then Panicked(calls)
      else
        var reply := "pub " + c.before + " " + c.after;
        assert reply[3] != NotFoundReply[3];
        Replied(reply, calls)
  }

  /** processWsMsg: the trimmed line is split at its first space into a verb
      and its parameters; `sub` subscribes, `pub` publishes, any other verb is
      refused without touching the broker. */
  function ProcessWsMsg(msg: string, brokerFails: bool): (o: Outcome)
    ensures |o.calls| <= 1
    ensures o.Panicked? ==> brokerFails && |o.calls| == 1
    ensures o.Replied? ==> o.reply != []
    ensures var verb := CutAt(TrimSpace(msg), ' ').before;
            verb != "sub" && verb != "pub" ==> o == Replied(UnrecognizedReply, [])
    ensures var c := CutAt(TrimSpace(msg), ' ');
            c.before == "sub" ==>
              o == if brokerFails then Panicked([SubscribeCall(c.after, BrokerQoS)])
                   else Replied("info subscribed to " + c.after, [SubscribeCall(c.after, BrokerQoS)])
    ensures var c := CutAt(TrimSpace(msg), ' ');
            c.before == "pub" ==> o == Publish(c.after, 1, false, brokerFails)
    ensures forall call :: call in o.calls && call.PublishCall? ==>
              CutAt(TrimSpace(msg), ' ').before == "pub" && call.qos == BrokerQoS && !call.retained
  {
    var m := TrimSpace(msg);
    var c := CutAt(m, ' ');
    match c.before
    case "sub" =>
      var calls := [SubscribeCall(c.after, BrokerQoS)];
      if brokerFails then Panicked(calls) else Replied("info subscribed to " + c.after, calls)
    case "pub" => Publish(c.after, 1, false, brokerFails)
    case _ => Replied(UnrecognizedReply, [])
  }

  /** `sub <t>` subscribes to exactly t, leading white space included, and
      says so; with t empty the line is `sub ` and subscribes to the empty
      topic. */
  lemma SubscribeCommand(t: string, brokerFails: bool)
    requires t == [] || !IsSpace(t[|t| - 1])
    ensures ProcessWsMsg("sub " + t, brokerFails)
            == if brokerFails then Panicked([SubscribeCall(t, BrokerQoS)])
               else Replied("info subscribed to " + t, [SubscribeCall(t, BrokerQoS)])
  {
    var line := "sub " + t;
    if t == [] {
      assert line == "sub ";
      assert TrimSpace(line) == "sub" by {
        assert IsSpace(line[3]) && !IsSpace(line[2]);
        assert SkipSpaceBack(line, 0, 3) == 3;
      }
      assert CutAt("sub", ' ') == Cut("sub", [], false);
    } else {
      TrimmedIsFixed(line);
      assert line == "sub" + [' '] + t;
      CutAtFirst("sub", ' ', t);
    }
  }

  /** Round trip: `pub <t> <p>` publishes payload p to topic t at QoS 1
      without retain and echoes the command. The topic has no space and does
      not start with white space; the payload may hold spaces and does not
      end with white space. */
  lemma PublishCommand(t: string, p: string, brokerFails: bool)
    requires t != [] && ' ' !in t && !IsSpace(t[0])
    requires p != [] && !IsSpace(p[|p| - 1])
    ensures ProcessWsMsg("pub " + t + " " + p, brokerFails)
            == if brokerFails then Panicked([PublishCall(t, BrokerQoS, false, p)])
               else Replied("pub " + t + " " + p, [PublishCall(t, BrokerQoS, false, p)])
  {
    var params := t + " " + p;
    var line := "pub " + t + " " + p;
    assert line == "pub" + [' '] + params;
    TrimmedIsFixed(line);
    CutAtFirst("pub", ' ', params);
    assert ProcessWsMsg(line, brokerFails) == Publish(params, 1, false, brokerFails);
    TrimmedIsFixed(params);
    CutAtFirst(t, ' ', p);
  }

  /** `pub <t>` without a payload publishes nothing: with no space in t,
      other white space included, the trimmed parameters hold no space. */
  lemma PublishWithoutPayload(t: string, brokerFails: bool)
    requires ' ' !in t
    ensures ProcessWsMsg("pub " + t, brokerFails) == Replied(NotFoundReply, [])
  {
    var line := "pub " + t;
    assert line[..4] == "pub " && line[4..] == t;
    assert TrimStart(line) == 0 by { assert !IsSpace(line[0]); }
    var k := TrimEnd(line);
    assert k >= 3 by {
      assert !IsSpace(line[2]);
      assert forall m :: k <= m < |line| ==> IsSpace(line[m]);
    }
    if k == 3 {
      assert TrimSpace(line) == "pub";
      assert CutAt("pub", ' ') == Cut("pub", [], false);
    } else {
      var rest := line[4..k];
      assert ' ' !in rest by { assert rest == t[..k - 4]; }
      assert TrimSpace(line) == "pub" + [' '] + rest;
      CutAtFirst("pub", ' ', rest);
      TrimSpaceKeeps(rest, ' ');
    }
  }

  /** The reply to a successful publish is itself a command that publishes
      the same message again. */
  lemma PublishReplyReplays(msg: string)
    requires ProcessWsMsg(msg, false).calls != []
    requires ProcessWsMsg(msg, false).calls[0].PublishCall?
    ensures ProcessWsMsg(ProcessWsMsg(msg, false).reply, false) == ProcessWsMsg(msg, false)
  {
    var params := CutAt(TrimSpace(msg), ' ').after;
    var m := TrimSpace(params);
    var call := ProcessWsMsg(msg, false).calls[0];
    var t, p := call.topic, call.payload;
    assert m == t + " " + p;
    assert m[0] == (t + " " + p)[0];
    assert t != [];
    assert m[|m| - 1] == (t + " " + p)[|m| - 1];
    assert p != [];
    PublishCommand(t, p, false);
  }

  /** None of the fixed reply texts holds a newline. */
  lemma FixedTextsHaveNoNewline()
    ensures '\n' !in UnrecognizedReply && '\n' !in NotFoundReply
    ensures '\n' !in "info subscribed to " && '\n' !in "pub " && '\n' !in " "
  {
  }

  /** A reply to a line without newlines holds no newline either, so the
      replies queued for one client can be told apart in a coalesced frame. */
  lemma ReplyHasNoNewline(msg: string, brokerFails: bool)
    requires '\n' !in msg
    ensures ProcessWsMsg(msg, brokerFails).Replied? ==> '\n' !in ProcessWsMsg(msg, brokerFails).reply
  {
    var m := TrimSpace(msg);
    TrimSpaceKeeps(msg, '\n');
    var c := CutAt(m, ' ');
    assert '\n' !in c.after;
    var o := ProcessWsMsg(msg, brokerFails);
    FixedTextsHaveNoNewline();
    if c.before == "sub" && o.Replied? {
      assert o.reply == "info subscribed to " + c.after;
      assert '\n' !in o.reply;
    } else if c.before == "pub" && o.Replied? && o.calls != [] {
      TrimSpaceKeeps(c.after, '\n');
      var call := o.calls[0];
      assert '\n' !in call.topic && '\n' !in call.payload;
      assert o.reply == "pub " + call.topic + " " + call.payload;
      assert '\n' !in o.reply;
    } else if o.Replied? {
      assert o.reply == UnrecognizedReply || o.reply == NotFoundReply;
      assert '\n' !in o.reply;
    }
  }

  /** Sample exchange: a publish whose payload holds a space. */
  lemma PublishExample()
    ensures ProcessWsMsg("pub topic1 hello world", false)
            == Replied("pub topic1 hello world", [PublishCall("topic1", 1, false, "hello world")])
  {
    assert "pub topic1 hello world" == "pub " + "topic1" + " " + "hello world";
    PublishCommand("topic1", "hello world", false);
  }

  /** Sample exchange: a publish without payload. */
  lemma PublishWithoutPayloadExample()
    ensures ProcessWsMsg("pub topic1", false) == Replied("publish message not found", [])
  {
    assert "pub topic1" == "pub " + "topic1";
    PublishWithoutPayload("topic1", false);
  }

  /** Sample exchange: a tab is not a separator, so the line `pub <tab>x`
      has the one parameter word `x` and nothing to publish. */
  lemma PublishTabExample()
    ensures ProcessWsMsg("pub \tx", false) == Replied(NotFoundReply, [])
  {
    assert "pub \tx" == "pub " + "\tx";
    PublishWithoutPayload("\tx", false);
  }

  /** Sample exchange: a subscription to a wildcard filter. */
  lemma SubscribeExample()
    ensures ProcessWsMsg("sub sensors/+", false)
            == Replied("info subscribed to sensors/+", [SubscribeCall("sensors/+", 1)])
  {
    assert "sub sensors/+" == "sub " + "sensors/+";
    assert "info subscribed to sensors/+" == "info subscribed to " + "sensors/+";
    SubscribeCommand("sensors/+", false);
  }

  /** Sample exchange: the bare verb `sub` subscribes to the empty topic. */
  lemma BareSubscribeExample()
    ensures ProcessWsMsg("sub", false) == Replied("info subscribed to ", [SubscribeCall("", 1)])
  {
    TrimmedIsFixed("sub");
    assert CutAt("sub", ' ') == Cut("sub", [], false);
  }

  /** Sample exchange: a subscription whose topic starts with a space, as in
      the line `sub  x`. */
  lemma SpacedSubscribeExample()
    ensures ProcessWsMsg("sub  x", false) == Replied("info subscribed to  x", [SubscribeCall(" x", 1)])
  {
    assert "sub  x" == "sub " + " x";
    assert "info subscribed to  x" == "info subscribed to " + " x";
    SubscribeCommand(" x", false);
  }

  /** Sample exchange: a publish with two spaces after the topic keeps the
      extra space in the payload. */
  lemma SpacedPublishExample()
    ensures ProcessWsMsg("pub t  p", false) == Replied("pub t  p", [PublishCall("t", 1, false, " p")])
  {
    assert "pub t  p" == "pub " + "t" + " " + " p";
    PublishCommand("t", " p", false);
  }

  /** Sample exchange: an unknown verb. */
  lemma UnrecognizedExample()
    ensures ProcessWsMsg("frobnicate", false) == Replied("err unrecognized command", [])
  {
    TrimmedIsFixed("frobnicate");
  }

  /** The line a broker message is relayed to a client as (the per-client
      message handler). */
  function RcvLine(topic: string, payload: string): (line: string)
    ensures |line| == 5 + |topic| + |payload|
    ensures line[..4] == "rcv " && line[4..4 + |topic|] == topic
    ensures line[4 + |topic|] == ' ' && line[5 + |topic|..] == payload
  {
    "rcv " + topic + " " + payload
  }

  /** A relayed line starts with the verb `rcv`; when the topic has no space,
      topic and payload are recovered by two splits at the first space. */
  lemma RcvLineFields(topic: string, payload: string)
    ensures CutAt(RcvLine(topic, payload), ' ') == Cut("rcv", topic + " " + payload, true)
    ensures ' ' !in topic ==> CutAt(topic + " " + payload, ' ') == Cut(topic, payload, true)
  {
    assert RcvLine(topic, payload) == "rcv" + [' '] + (topic + " " + payload);
    CutAtFirst("rcv", ' ', topic + " " + payload);
    if ' ' !in topic {
      CutAtFirst(topic, ' ', payload);
    }
  }
}
