/**
  The phone-to-robot protocol end to end: a telemetry line composed by the
  client, read by each of the three servers, and the ack-gated exchange it
  drives.
*/
module Protocol {
  import opened Common
  import opened Text
  import opened Wire
  import opened Client
  import Kinova
  import TcpServer
  import LegacyServer

  /** The formatter never produces the entry separator ", " nor the "=" of an entry. */
  ghost predicate SeparatorFree(fmt: RealFormatter)
  {
    forall x: real, d: nat :: !Contains(fmt(x, d), ", ") && '=' !in fmt(x, d)
  }

  /** float() accepts every formatted number and every integer text. */
  ghost predicate AcceptsNumbers(fmt: RealFormatter, parse: Kinova.FloatParser)
  {
    && (forall x: real, d: nat :: parse(fmt(x, d)).Some?)
    && (forall n: int :: parse(IntToString(n)).Some?)
  }

  predicate Letters(name: string)
  {
    name != [] && forall k :: 0 <= k < |name| ==> 'A' <= name[k] <= 'Z' || 'a' <= name[k] <= 'z'
  }

  /** A name made of letters holds no ',' and no '=', and str.strip() leaves it as it is. */
  lemma LettersPlain(name: string)
    requires Letters(name)
    ensures ',' !in name + "=" && '=' !in name && Strip(name) == name
  {
    assert (name + "=")[|name|] == '=';
  }

  /** No label holds a ',' or an '=', and none starts or ends with white space. */
  lemma LabelsPlain()
    ensures forall i :: 0 <= i < |Labels| ==> ',' !in Labels[i] + "=" && '=' !in Labels[i] && Strip(Labels[i]) == Labels[i]
  {
    forall i | 0 <= i < |Labels|
      ensures ',' !in Labels[i] + "=" && '=' !in Labels[i] && Strip(Labels[i]) == Labels[i]
    {
      assert Letters(Labels[i]) by {
        if i == 0 { assert Labels[i] == "OrieX"; }
        else if i == 1 { assert Labels[i] == "OrieY"; }
        else if i == 2 { assert Labels[i] == "OrieZ"; }
        else if i == 3 { assert Labels[i] == "Pitch"; }
        else if i == 4 { assert Labels[i] == "Roll"; }
        else if i == 5 { assert Labels[i] == "Gripper"; }
        else { assert Labels[i] == "Height"; }
      }
      LettersPlain(Labels[i]);
    }
  }

  /** The labels end in seven different letters, so no two are equal. */
  lemma LabelsDistinct()
    ensures forall i, j :: 0 <= i < j < |Labels| ==> Labels[i] != Labels[j]
  {
    forall i | 0 <= i < |Labels|
      ensures |Labels[i]| > 0 && Labels[i][|Labels[i]| - 1] == "XYZhlrt"[i]
    {
    }
  }

  /** An integer's text holds neither ',' nor '=', so neither ", " nor "=". */
  lemma IntTextPlain(n: int)
    ensures ',' !in IntToString(n) && '=' !in IntToString(n) && !Contains(IntToString(n), ", ")
  {
    var digits := IntToString(n);
    assert forall c :: c in digits ==> c == '-' || '0' <= c <= '9';
    NoFirstCharNotContains(digits, ", ");
  }

  /** A `name=value` entry whose name has no ',' holds ", " only if its value does. */
  lemma EntryNoSeparator(name: string, text: string)
    requires ',' !in name + "=" && !Contains(text, ", ")
    ensures !Contains(name + "=" + text, ", ")
  {
    var head := name + "=";
    NoFirstCharNotContains(head, ", ");
    assert head[|head| - 1] == '=';
    ConcatNotContains(head, text, ", ");
  }

  /** Each value text of a telemetry line is free of ", " and of "=". */
  lemma FieldTextsPlain(t: Telemetry, high: bool, fmt: RealFormatter)
    requires SeparatorFree(fmt)
    ensures var texts := FieldTexts(t, high, fmt);
      forall i :: 0 <= i < |Labels| ==> '=' !in texts[i] && !Contains(texts[i], ", ")
  {
    IntTextPlain(Truncate(t.gripper));
  }

  /** Each entry of a telemetry line is free of ", ", and each value text is free of "=". */
  lemma EntriesPlain(t: Telemetry, high: bool, fmt: RealFormatter)
    requires SeparatorFree(fmt)
    ensures var texts := FieldTexts(t, high, fmt);
      forall i :: 0 <= i < |Labels| ==> '=' !in texts[i] && !Contains(Entries(texts)[i], ", ")
  {
    var texts := FieldTexts(t, high, fmt);
    LabelsPlain();
    FieldTextsPlain(t, high, fmt);
    forall i | 0 <= i < |Labels|
      ensures !Contains(Entries(texts)[i], ", ")
    {
      EntryNoSeparator(Labels[i], texts[i]);
    }
  }

  /** Split on ", ", the text after "Data: " gives back the seven `label=value` entries. */
  lemma TelemetryEntries(t: Telemetry, high: bool, fmt: RealFormatter)
    requires SeparatorFree(fmt)
    ensures var line := DataLine(t, high, fmt);
      && StartsWith(line, DataPrefix)
      && Split(line[|DataPrefix|..], ", ") == Entries(FieldTexts(t, high, fmt))
  {
    var es := Entries(FieldTexts(t, high, fmt));
    DataLineLayout(t, high, fmt);
    assert DataLine(t, high, fmt)[|DataPrefix|..] == Join(es, ", ");
    EntriesPlain(t, high, fmt);
    CommaSpaceBorderFree();
    SplitOfJoin(es, ", ");
  }

  /** float() accepts each of the seven value texts. */
  lemma FieldTextsParse(t: Telemetry, high: bool, fmt: RealFormatter, parse: Kinova.FloatParser)
    requires AcceptsNumbers(fmt, parse)
    ensures var texts := FieldTexts(t, high, fmt);
      forall i :: 0 <= i < |Labels| ==> parse(texts[i]).Some?
  {
    var d := Decimals(high);
    assert parse(fmt(t.orieX, d)).Some? && parse(fmt(t.orieY, d)).Some? && parse(fmt(t.orieZ, d)).Some?;
    assert parse(fmt(t.pitch, d)).Some? && parse(fmt(t.roll, d)).Some? && parse(fmt(t.height, d)).Some?;
    assert parse(IntToString(Truncate(t.gripper))).Some?;
  }

  /** The numbers float() reads from the seven value texts. */
  function Values(texts: seq<string>, parse: Kinova.FloatParser): (values: seq<real>)
    requires forall i :: 0 <= i < |texts| ==> parse(texts[i]).Some?
    ensures |values| == |texts| && forall i :: 0 <= i < |texts| ==> parse(texts[i]) == Some(values[i])
  {
    seq(|texts|, i requires 0 <= i < |texts| => parse(texts[i]).value)
  }

  /** Each entry of a telemetry line parses to its label and float() of its value text. */
  lemma ParsedTelemetry(t: Telemetry, high: bool, fmt: RealFormatter, parse: Kinova.FloatParser)
    requires SeparatorFree(fmt) && AcceptsNumbers(fmt, parse)
    ensures var texts := FieldTexts(t, high, fmt);
      && (forall i :: 0 <= i < |texts| ==> parse(texts[i]).Some?)
      && Labelled(Kinova.ParseEntries(Entries(texts), parse), Values(texts, parse))
  {
    var texts := FieldTexts(t, high, fmt);
    var es := Entries(texts);
    EntriesPlain(t, high, fmt);
    LabelsPlain();
    FieldTextsParse(t, high, fmt, parse);
    forall i | 0 <= i < |Labels|
      ensures Kinova.ParseEntry(es[i], parse) == Ok((Labels[i], parse(texts[i]).value))
    {
      Kinova.ParseEntryOfPair(Labels[i], texts[i], parse);
    }
  }

  /** The Kinova server's update, applied to the text after "Data: ", assigns the parsed entries in order. */
  lemma PayloadEntries(t: Telemetry, high: bool, fmt: RealFormatter, parse: Kinova.FloatParser, m: map<string, real>)
    requires SeparatorFree(fmt)
    ensures Kinova.UpdatedSensorData(m, DataLine(t, high, fmt)[|DataPrefix|..], parse)
         == Kinova.ApplyAll(m, Kinova.ParseEntries(Entries(FieldTexts(t, high, fmt)), parse))
  {
    TelemetryEntries(t, high, fmt);
  }

  /** The server's start-up keys are the client's labels. */
  lemma SensorKeysAreLabels()
    ensures forall k :: k in Kinova.SensorKeys <==> exists i :: 0 <= i < |Labels| && Labels[i] == k
  {
    forall k | k in Kinova.SensorKeys
      ensures exists i :: 0 <= i < |Labels| && Labels[i] == k
    {
      if k == "OrieX" { assert Labels[0] == k; }
      else if k == "OrieY" { assert Labels[1] == k; }
      else if k == "OrieZ" { assert Labels[2] == k; }
      else if k == "Pitch" { assert Labels[3] == k; }
      else if k == "Roll" { assert Labels[4] == k; }
      else if k == "Gripper" { assert Labels[5] == k; }
      else { assert Labels[6] == k; }
    }
  }

  /** Entries that assign one value under each label, in the order of the labels. */
  predicate Labelled(ps: seq<Kinova.Parsed>, values: seq<real>)
  {
    |ps| == |Labels| == |values| && forall i :: 0 <= i < |Labels| ==> ps[i] == Ok((Labels[i], values[i]))
  }

  /** Each label ends up holding its own value, as no later entry names it again. */
  lemma LabelledValues(m: map<string, real>, ps: seq<Kinova.Parsed>, values: seq<real>)
    requires Labelled(ps, values)
    ensures var a := Kinova.ApplyAll(m, ps);
      forall i :: 0 <= i < |Labels| ==> Labels[i] in a.store && a.store[Labels[i]] == values[i]
  {
    LabelsDistinct();
    forall i | 0 <= i < |Labels|
      ensures Labels[i] in Kinova.ApplyAll(m, ps).store && Kinova.ApplyAll(m, ps).store[Labels[i]] == values[i]
    {
      Kinova.ApplyLastWins(m, ps, i);
    }
  }

  /** The keys such entries assign are the start-up keys. */
  lemma LabelledKeys(ps: seq<Kinova.Parsed>, values: seq<real>)
    requires Labelled(ps, values)
    ensures Kinova.ParsedKeys(ps) == Kinova.SensorKeys
  {
    Kinova.ParsedKeysAllOk(ps);
    SensorKeysAreLabels();
    forall k | k in Kinova.ParsedKeys(ps)
      ensures k in Kinova.SensorKeys
    {
      var i :| 0 <= i < |ps| && ps[i].value.0 == k;
      assert Labels[i] == k;
    }
    forall k | k in Kinova.SensorKeys
      ensures k in Kinova.ParsedKeys(ps)
    {
      var i :| 0 <= i < |Labels| && Labels[i] == k;
      assert ps[i].value.0 == k;
    }
  }

  /** Assigning one value under each label, in order, adds exactly the labels and stores each value. */
  lemma ApplyLabelled(m: map<string, real>, ps: seq<Kinova.Parsed>, values: seq<real>)
    requires Labelled(ps, values)
    ensures var a := Kinova.ApplyAll(m, ps);
      && a.error.None?
      && a.store.Keys == m.Keys + Kinova.SensorKeys
      && forall i :: 0 <= i < |Labels| ==> Labels[i] in a.store && a.store[Labels[i]] == values[i]
  {
    LabelledValues(m, ps, values);
    Kinova.ApplyKeys(m, ps);
    LabelledKeys(ps, values);
  }

  /**
    Round trip: the Kinova server reads a telemetry line into exactly the
    seven keys of its dictionary, each holding float() of the text the client
    formatted for it; keys the dictionary already had stay, so from the
    start-up dictionary the keys are exactly the start-up keys.
  */
  lemma TelemetryRoundTrip(t: Telemetry, high: bool, fmt: RealFormatter, parse: Kinova.FloatParser, m: map<string, real>)
    requires SeparatorFree(fmt) && AcceptsNumbers(fmt, parse)
    ensures var a := Kinova.UpdatedSensorData(m, DataLine(t, high, fmt)[|DataPrefix|..], parse);
      && a.error.None?
      && a.store.Keys == m.Keys + Kinova.SensorKeys
      && forall i :: 0 <= i < |Labels| ==> Labels[i] in a.store && parse(FieldTexts(t, high, fmt)[i]) == Some(a.store[Labels[i]])
  {
    var texts := FieldTexts(t, high, fmt);
    PayloadEntries(t, high, fmt, parse, m);
    ParsedTelemetry(t, high, fmt, parse);
    ApplyLabelled(m, Kinova.ParseEntries(Entries(texts), parse), Values(texts, parse));
  }

  /**
    The gripper threshold seen from the phone: the Kinova server stores the
    truncated slider value, so the gripper opens exactly when the slider is at
    501 or more (500.9 truncates to 500 and closes).
  */
  lemma GripperEndToEnd(t: Telemetry, high: bool, fmt: RealFormatter, parse: Kinova.FloatParser, m: map<string, real>)
    requires SeparatorFree(fmt) && AcceptsNumbers(fmt, parse)
    requires forall n: int :: parse(IntToString(n)) == Some(n as real)
    ensures var a := Kinova.UpdatedSensorData(m, DataLine(t, high, fmt)[|DataPrefix|..], parse);
      && "Gripper" in a.store
      && a.store["Gripper"] == Truncate(t.gripper) as real
      && (Kinova.GripperRule(a.store) == Kinova.Open <==> t.gripper >= 501.0)
  {
    TelemetryRoundTrip(t, high, fmt, parse, m);
    assert Labels[5] == "Gripper";
    assert FieldTexts(t, high, fmt)[5] == IntToString(Truncate(t.gripper));
    var n := Truncate(t.gripper);
    assert n > 500 <==> t.gripper >= 501.0;
  }

  /** The Kinova server answers exactly as the test server does whenever the telemetry it gets parses. */
  lemma KinovaRepliesLikeTcpServer(m: map<string, real>, message: string, parse: Kinova.FloatParser)
    ensures var h := Kinova.Reaction(m, message, parse);
      h.error.None? ==> h.reply == TcpServer.Reply(message)
  {
  }

  /** Over a whole connection that raises nothing, the Kinova server's replies are the test server's. */
  lemma {:induction false} KinovaSessionLikeTcpServer(m: map<string, real>, messages: seq<string>, parse: Kinova.FloatParser)
    ensures var s := Kinova.Session(m, messages, parse);
      s.error.None? ==> s.replies == TcpServer.Serve(messages)
    decreases |messages|
  {
    if messages != [] {
      var h := Kinova.Reaction(m, messages[0], parse);
      KinovaRepliesLikeTcpServer(m, messages[0], parse);
      if h.error.None? {
        KinovaSessionLikeTcpServer(h.store, messages[1..], parse);
      }
    }
  }

  /** Every server answers the probe with "Connection Established", and the Kinova server's dictionary is untouched by it. */
  lemma ProbeAnswered(m: map<string, real>, parse: Kinova.FloatParser)
    ensures Kinova.Reaction(m, ProbeMessage, parse) == Kinova.Handled(m, Some(EstablishedToken), None)
    ensures TcpServer.Reply(ProbeMessage) == Some(EstablishedToken)
    ensures LegacyServer.Handle(ProbeMessage, parse) == LegacyServer.Replied(EstablishedToken)
  {
  }

  /**
    The older server cannot read the client's telemetry: the first
    orientation text it takes is `OrieX=<value>`, which float() rejects, so
    the connection ends at the first telemetry line without a reply.
  */
  lemma LegacyRejectsTelemetry(t: Telemetry, high: bool, fmt: RealFormatter, parse: string -> Option<real>, rest: seq<string>)
    requires forall s: string :: '=' in s ==> parse(s).None?
    ensures LegacyServer.Handle(DataLine(t, high, fmt), parse).Raised?
    ensures LegacyServer.Serve([ProbeMessage, DataLine(t, high, fmt)] + rest, parse) == [EstablishedToken]
  {
    var line := DataLine(t, high, fmt);
    DataLineStartsOrieX(t, high, fmt);
    LegacyRejectsOrieEntry(line, parse);
    assert [ProbeMessage, line] + rest == [ProbeMessage] + ([line] + rest);
    LegacyServer.ServeProbe([line] + rest, parse);
    LegacyServer.ServeStops(line, rest, parse);
  }

  lemma DataLineStartsOrieX(t: Telemetry, high: bool, fmt: RealFormatter)
    ensures StartsWith(DataLine(t, high, fmt), "Data: OrieX=")
  {
    var d, p := Decimals(high), "Data: OrieX=";
    var l := p + fmt(t.orieX, d);
    assert l[..|p|] == p;
    l := Grow(l, p, ", OrieY=", fmt(t.orieY, d));
    l := Grow(l, p, ", OrieZ=", fmt(t.orieZ, d));
    l := Grow(l, p, ", Pitch=", fmt(t.pitch, d));
    l := Grow(l, p, ", Roll=", fmt(t.roll, d));
    l := Grow(l, p, ", Gripper=", IntToString(Truncate(t.gripper)));
    l := Grow(l, p, ", Height=", fmt(t.height, d));
  }

  /** Appending a name and a value keeps the prefix of a line. */
  lemma Grow(l: string, p: string, name: string, value: string) returns (l': string)
    requires StartsWith(l, p)
    ensures l' == l + name + value && StartsWith(l', p)
  {
    l' := l + name + value;
    assert l'[..|p|] == l[..|p|];
  }

  /** Any message starting "Data: OrieX=" makes the older server raise. */
  lemma LegacyRejectsOrieEntry(line: string, parse: string -> Option<real>)
    requires StartsWith(line, "Data: OrieX=")
    requires forall s: string :: '=' in s ==> parse(s).None?
    ensures LegacyServer.Handle(line, parse).Raised?
  {
    var head := "Data: OrieX=";
    assert line == head + line[|head|..];
    SplitHeadAfterPrefix(head, line[|head|..], ", ");
    var first := Split(line, ", ")[0];
    OrieHeadHasEquals(first);
    assert line != ProbeMessage by {
      assert line[0] != ProbeMessage[0];
    }
  }

  /** The first orientation text of a first piece starting "Data: OrieX=" holds an '='. */
  lemma OrieHeadHasEquals(first: string)
    requires StartsWith(first, "Data: OrieX=")
    ensures '=' in LegacyServer.OrieTexts(first)[0]
  {
    var w := first[|"Data: OrieX="|..];
    assert first == DataPrefix + ("OrieX=" + w);
    RemoveAllPrefixOnce(first, "OrieX=" + w);
    RemoveAllAfterPrefix("OrieX=", w, DataPrefix);
    SplitHeadAfterPrefix("OrieX=", RemoveAll(w, DataPrefix), ", ");
    assert LegacyServer.OrieTexts(first)[0][5] == '=';
  }

  /** A leading "Data: " is the first thing `replace("Data: ", "")` removes. */
  lemma RemoveAllPrefixOnce(s: string, rest: string)
    requires s == DataPrefix + rest
    ensures RemoveAll(s, DataPrefix) == RemoveAll(rest, DataPrefix)
  {
    assert s[..|DataPrefix|] == DataPrefix && s[|DataPrefix|..] == rest;
  }

  /**
    The ack-gated exchange with the test server: the server answers the last
    text the client sent, the client handles the answer at the next time in
    `times`, and so on while there are answers.
  */
  function Exchange(l: LinkState, t: Telemetry, fmt: RealFormatter, times: seq<int>): LinkState
    decreases |times|
  {
    if times == [] || l.sent == [] then l
    else match TcpServer.Reply(l.sent[|l.sent| - 1])
      case None => l
      case Some(answer) => Exchange(OnMessage(l, t, fmt, answer, times[0]), t, fmt, times[1..])
  }

  /**
    One round of the exchange: the server answers the last text sent, and the
    client's handling of that answer sends one more telemetry line, which is
    itself answerable.
  */
  lemma ExchangeRound(l: LinkState, t: Telemetry, fmt: RealFormatter, now: int)
    requires l.task != NoTask && l.sent != []
    requires l.sent[|l.sent| - 1] == ProbeMessage || StartsWith(l.sent[|l.sent| - 1], DataPrefix)
    ensures TcpServer.Reply(l.sent[|l.sent| - 1]).Some?
    ensures var l' := OnMessage(l, t, fmt, TcpServer.Reply(l.sent[|l.sent| - 1]).value, now);
      && l'.task == l.task && l'.highPrecision == l.highPrecision
      && l'.sent == l.sent + [DataLine(t, l.highPrecision, fmt)]
      && l'.lastSendTime == Some(now)
      && StartsWith(l'.sent[|l'.sent| - 1], DataPrefix) && l'.sent[|l'.sent| - 1] != ProbeMessage
      && (l.sent[|l.sent| - 1] == ProbeMessage ==> l'.isConnected && !l'.connectionError)
      && (l.sent[|l.sent| - 1] != ProbeMessage ==> l'.isConnected == l.isConnected && l'.connectionError == l.connectionError)
  {
    var line := DataLine(t, l.highPrecision, fmt);
    var answer := TcpServer.Reply(l.sent[|l.sent| - 1]).value;
    OnMessageSends(l, t, fmt, answer, now);
    OnMessageFlags(l, t, fmt, answer, now);
    DataLineLayout(t, l.highPrecision, fmt);
    assert line[0] == 'D' && ProbeMessage[0] == 'T';
  }

  /**
    Lockstep pacing: once the probe (or a telemetry line) is out, every round
    of the exchange adds exactly one telemetry line to what the client sent,
    and the send time is that of the last round.
  */
  lemma {:induction false} Lockstep(l: LinkState, t: Telemetry, fmt: RealFormatter, times: seq<int>)
    requires l.task != NoTask && l.sent != []
    requires l.sent[|l.sent| - 1] == ProbeMessage || StartsWith(l.sent[|l.sent| - 1], DataPrefix)
    ensures var l' := Exchange(l, t, fmt, times);
      && l'.sent == l.sent + Copies(DataLine(t, l.highPrecision, fmt), |times|)
      && (times != [] ==> l'.lastSendTime == Some(times[|times| - 1]))
    decreases |times|
  {
    if times != [] {
      var line := DataLine(t, l.highPrecision, fmt);
      ExchangeRound(l, t, fmt, times[0]);
      var l1 := OnMessage(l, t, fmt, TcpServer.Reply(l.sent[|l.sent| - 1]).value, times[0]);
      Lockstep(l1, t, fmt, times[1..]);
      var l' := Exchange(l, t, fmt, times);
      assert l' == Exchange(l1, t, fmt, times[1..]);
      OneMoreCopy(l.sent, l1.sent, l'.sent, line, |times| - 1);
      if |times| > 1 {
        assert times[1..][|times[1..]| - 1] == times[|times| - 1];
      }
    }
  }

  /** A log that gained one line and then k more copies of it gained k + 1 copies. */
  lemma OneMoreCopy(s0: seq<string>, s1: seq<string>, s2: seq<string>, line: string, k: nat)
    requires s1 == s0 + [line] && s2 == s1 + Copies(line, k)
    ensures s2 == s0 + Copies(line, k + 1)
  {
    CopiesAppend(line, 1, k);
    assert Copies(line, 1) == [line];
  }

  /**
    Over the same exchange, the answer to the probe leaves the client
    connected without an error, and answers to telemetry lines leave both
    flags as they were.
  */
  lemma {:induction false} LockstepConnected(l: LinkState, t: Telemetry, fmt: RealFormatter, times: seq<int>)
    requires l.task != NoTask && l.sent != []
    requires l.sent[|l.sent| - 1] == ProbeMessage || StartsWith(l.sent[|l.sent| - 1], DataPrefix)
    ensures var l' := Exchange(l, t, fmt, times);
      && (times != [] && l.sent[|l.sent| - 1] == ProbeMessage ==> l'.isConnected && !l'.connectionError)
      && ((times == [] || l.sent[|l.sent| - 1] != ProbeMessage)
          ==> l'.isConnected == l.isConnected && l'.connectionError == l.connectionError)
    decreases |times|
  {
    if times != [] {
      ExchangeRound(l, t, fmt, times[0]);
      var l1 := OnMessage(l, t, fmt, TcpServer.Reply(l.sent[|l.sent| - 1]).value, times[0]);
      LockstepConnected(l1, t, fmt, times[1..]);
    }
  }
}
