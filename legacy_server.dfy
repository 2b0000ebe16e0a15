/**
  The older robot-side server (server.py): it answers the probe and otherwise
  reads a positional message `Data: <orie>, Pitch: <p>, Roll: <r>,
  Gripper: <g>`. It never acknowledges telemetry. Python's `float()` is the
  parameter `parse`; an exception escapes `handle_client` and ends the
  connection.
*/
module LegacyServer {
  import opened Common
  import opened Text
  import opened Wire

  /** The exceptions the parser can raise. */
  datatype Failure = IndexError | ValueError(text: string)

  /** What one message leads to. */
  datatype Outcome =
    | Replied(reply: string)
    | Parsed(orie: seq<real>, pitch: real, roll: real, gripper: real)
    | Raised(failure: Failure)

  /** `tuple(map(float, texts))`: the first text that is not a number raises. */
  function FloatAll(texts: seq<string>, parse: string -> Option<real>): (r: Result<seq<real>, Failure>)
    ensures r.Ok? <==> forall i :: 0 <= i < |texts| ==> parse(texts[i]).Some?
    ensures r.Ok? ==> |r.value| == |texts| && forall i :: 0 <= i < |texts| ==> parse(texts[i]) == Some(r.value[i])
    ensures forall i :: 0 <= i < |texts| && parse(texts[i]).None? && (forall j :: 0 <= j < i ==> parse(texts[j]).Some?)
                        ==> r == Err(ValueError(texts[i]))
    decreases |texts|
  {
    if texts == [] then Ok([])
    else match parse(texts[0])
      case None => Err(ValueError(texts[0]))
      case Some(x) =>
        var rest := FloatAll(texts[1..], parse);
        assert forall i :: 1 <= i < |texts| ==> texts[i] == texts[1..][i - 1];
        if rest.Err? then rest else Ok([x] + rest.value)
  }

  /** The orientation texts: the first piece with "Data: " removed, split again on ", ". */
  function OrieTexts(first: string): seq<string>
  {
    Split(RemoveAll(first, DataPrefix), ", ")
  }

  /**
    `float(data[k].replace(name, ""))`: an IndexError when there are at most k
    pieces, otherwise the number float() reads from piece k with its label
    removed, or the ValueError naming that text.
  */
  function Field(data: seq<string>, k: nat, name: string, parse: string -> Option<real>): (r: Result<real, Failure>)
    requires name != []
    ensures |data| <= k ==> r == Err(IndexError)
    ensures k < |data| ==> (r.Ok? <==> parse(RemoveAll(data[k], name)).Some?)
    ensures k < |data| && r.Ok? ==> parse(RemoveAll(data[k], name)) == Some(r.value)
    ensures k < |data| && r.Err? ==> r == Err(ValueError(RemoveAll(data[k], name)))
  {
    if |data| <= k then Err(IndexError)
    else
      var text := RemoveAll(data[k], name);
      match parse(text)
      case None => Err(ValueError(text))
      case Some(x) => Ok(x)
  }

  /**
    A message the non-probe branch reads without raising: the orientation
    texts all parse, there are at least four pieces, and pieces 1, 2 and 3
    parse once "Pitch: ", "Roll: " and "Gripper: " are removed.
  */
  predicate Readable(message: string, parse: string -> Option<real>)
  {
    var data := Split(message, ", ");
    && FloatAll(OrieTexts(data[0]), parse).Ok?
    && |data| >= 4
    && parse(RemoveAll(data[1], "Pitch: ")).Some?
    && parse(RemoveAll(data[2], "Roll: ")).Some?
    && parse(RemoveAll(data[3], "Gripper: ")).Some?
  }

  /** The values a readable message yields: what float() reads from each field's text. */
  predicate ReadAs(message: string, parse: string -> Option<real>, o: Outcome)
  {
    var data := Split(message, ", ");
    && o.Parsed?
    && |data| >= 4
    && FloatAll(OrieTexts(data[0]), parse) == Ok(o.orie)
    && parse(RemoveAll(data[1], "Pitch: ")) == Some(o.pitch)
    && parse(RemoveAll(data[2], "Roll: ")) == Some(o.roll)
    && parse(RemoveAll(data[3], "Gripper: ")) == Some(o.gripper)
  }

  /** The parsing statements of the non-probe branch, in the order they run. */
  function Positional(message: string, parse: string -> Option<real>): (r: Result<Outcome, Failure>)
    ensures r.Ok? <==> Readable(message, parse)
    ensures r.Ok? ==> ReadAs(message, parse, r.value)
  {
    var data := Split(message, ", ");
    var orie :- FloatAll(OrieTexts(data[0]), parse);
    var pitch :- Field(data, 1, "Pitch: ", parse);
    var roll :- Field(data, 2, "Roll: ", parse);
    var gripper :- Field(data, 3, "Gripper: ", parse);
    Ok(Parsed(orie, pitch, roll, gripper))
  }

  /**
    handle_client's body for one message. Only the probe is ever answered,
    and only with "Connection Established"; in particular a telemetry line is
    never acknowledged with "received". Any other message raises exactly when
    it is not readable (in particular when it has fewer than four
    ", "-separated pieces), and otherwise yields the values float() reads.
  */
  function Handle(message: string, parse: string -> Option<real>): (o: Outcome)
    ensures o.Replied? <==> message == ProbeMessage
    ensures o.Replied? ==> o.reply == EstablishedToken
    ensures o.Raised? <==> message != ProbeMessage && !Readable(message, parse)
    ensures o.Parsed? <==> message != ProbeMessage && Readable(message, parse)
    ensures o.Parsed? ==> ReadAs(message, parse, o)
    ensures message != ProbeMessage && |Split(message, ", ")| < 4 ==> o.Raised?
  {
    if message == ProbeMessage then Replied(EstablishedToken)
    else match Positional(message, parse)
      case Ok(parsed) => parsed
      case Err(f) => Raised(f)
  }

  /** The format the server reads: `Data: <orie>, Pitch: <p>, Roll: <r>, Gripper: <g>`. */
  function Formatted(orie: string, pitch: string, roll: string, gripper: string): string
  {
    (DataPrefix + orie) + ", " + ("Pitch: " + pitch) + ", " + ("Roll: " + roll) + ", " + ("Gripper: " + gripper)
  }

  /** A label followed by a text without ", " holds no ", ". */
  lemma LabelledPlain(name: string, x: string)
    requires ',' !in name && name != [] && name[|name| - 1] == ' ' && !Contains(x, ", ")
    ensures !Contains(name + x, ", ")
  {
    NoFirstCharNotContains(name, ", ");
    ConcatNotContains(name, x, ", ");
  }

  /** A message in the server's format splits into its four labelled pieces. */
  lemma {:induction false} FormattedPieces(orie: string, pitch: string, roll: string, gripper: string)
    requires !Contains(orie, ", ") && !Contains(pitch, ", ") && !Contains(roll, ", ") && !Contains(gripper, ", ")
    ensures Split(Formatted(orie, pitch, roll, gripper), ", ")
         == [DataPrefix + orie, "Pitch: " + pitch, "Roll: " + roll, "Gripper: " + gripper]
  {
    var parts := [DataPrefix + orie, "Pitch: " + pitch, "Roll: " + roll, "Gripper: " + gripper];
    LabelledPlain(DataPrefix, orie);
    LabelledPlain("Pitch: ", pitch);
    LabelledPlain("Roll: ", roll);
    LabelledPlain("Gripper: ", gripper);
    JoinFour(parts[0], parts[1], parts[2], parts[3], ", ");
    CommaSpaceBorderFree();
    SplitOfJoin(parts, ", ");
  }

  /** A text without ", " is a single orientation text. */
  lemma SinglePiece(x: string)
    requires !Contains(x, ", ")
    ensures Split(x, ", ") == [x]
  {
    SplitSingle(x, ", ");
  }

  /**
    The server's own format, with field texts that hold no ", " and no copy
    of their own label, is read field by field: all four numbers when float()
    accepts every text, and otherwise a ValueError naming the first text it
    rejects, in the order orientation, pitch, roll, gripper.
  */
  lemma {:induction false} ReadsFormatted(orie: string, pitch: string, roll: string, gripper: string, parse: string -> Option<real>)
    requires !Contains(orie, ", ") && !Contains(pitch, ", ") && !Contains(roll, ", ") && !Contains(gripper, ", ")
    requires !Contains(orie, DataPrefix) && !Contains(pitch, "Pitch: ") && !Contains(roll, "Roll: ")
    requires !Contains(gripper, "Gripper: ")
    ensures var o := Handle(Formatted(orie, pitch, roll, gripper), parse);
      && (parse(orie).Some? && parse(pitch).Some? && parse(roll).Some? && parse(gripper).Some? ==>
            o == Parsed([parse(orie).value], parse(pitch).value, parse(roll).value, parse(gripper).value))
      && (parse(orie).None? ==> o == Raised(ValueError(orie)))
      && (parse(orie).Some? && parse(pitch).None? ==> o == Raised(ValueError(pitch)))
      && (parse(orie).Some? && parse(pitch).Some? && parse(roll).None? ==> o == Raised(ValueError(roll)))
      && (parse(orie).Some? && parse(pitch).Some? && parse(roll).Some? && parse(gripper).None? ==>
            o == Raised(ValueError(gripper)))
  {
    var m := Formatted(orie, pitch, roll, gripper);
    assert m[0] == 'D' && ProbeMessage[0] == 'T';
    FormattedPieces(orie, pitch, roll, gripper);
    var data := Split(m, ", ");
    RemoveLeadingLabel(DataPrefix, orie);
    SinglePiece(orie);
    assert OrieTexts(data[0]) == [orie];
    RemoveLeadingLabel("Pitch: ", pitch);
    RemoveLeadingLabel("Roll: ", roll);
    RemoveLeadingLabel("Gripper: ", gripper);
  }

  /** The replies over one connection; the first exception ends it. */
  function Serve(messages: seq<string>, parse: string -> Option<real>): (replies: seq<string>)
    ensures |replies| <= |messages|
    ensures forall i :: 0 <= i < |replies| ==> replies[i] == EstablishedToken
    decreases |messages|
  {
    if messages == [] then []
    else match Handle(messages[0], parse)
      case Replied(r) => [r] + Serve(messages[1..], parse)
      case Parsed(_, _, _, _) => Serve(messages[1..], parse)
      case Raised(_) => []
  }

  /** A message that raises ends the connection: nothing after it is answered. */
  lemma ServeStops(message: string, rest: seq<string>, parse: string -> Option<real>)
    requires Handle(message, parse).Raised?
    ensures Serve([message] + rest, parse) == []
  {
  }

  /** The probe is answered with "Connection Established", and the connection goes on. */
  lemma ServeProbe(rest: seq<string>, parse: string -> Option<real>)
    ensures Serve([ProbeMessage] + rest, parse) == [EstablishedToken] + Serve(rest, parse)
  {
    assert ([ProbeMessage] + rest)[1..] == rest;
  }

  /** The orientation has a single value exactly when the text left after removing "Data: " has no ", ". */
  lemma OrieSingle(first: string)
    ensures |OrieTexts(first)| == 1 <==> !Contains(RemoveAll(first, DataPrefix), ", ")
  {
    SplitSingle(RemoveAll(first, DataPrefix), ", ");
  }

  /** ",Data:  x" holds no ", ", so splitting the message leaves it whole. */
  lemma OrieSampleWhole()
    ensures Split(",Data:  x", ", ") == [",Data:  x"]
  {
    var m := ",Data:  x";
    NoFirstCharNotContains(m[1..], ", ");
    assert !OccursAt(m, ", ", 0);
    assert !Contains(m, ", ");
  }

  /** Removing "Data: " from ",Data:  x" leaves ", x". */
  lemma OrieSampleRemoved()
    ensures RemoveAll(",Data:  x", DataPrefix) == ", x"
  {
    var m := ",Data:  x";
    assert m[1..][..|DataPrefix|] == DataPrefix;
    assert m[1..][|DataPrefix|..] == " x";
    assert RemoveAll(" x", DataPrefix) == " x";
    RemoveAllKeepsHead(m, DataPrefix);
  }

  /** ", x" splits into an empty text and "x". */
  lemma OrieSampleSplit()
    ensures Split(", x", ", ") == ["", "x"]
  {
    assert OccursAt(", x", ", ", 0);
    assert IndexOf(", x", ", ") == Some(0);
    assert Split("x", ", ") == ["x"] by {
      NoFirstCharNotContains("x", ", ");
    }
  }

  /**
    The first piece never contains ", ", yet removing "Data: " can create one:
    ",Data:  x" is its own first piece and yields two orientation texts.
  */
  lemma OrieCanSplit()
    ensures Split(",Data:  x", ", ") == [",Data:  x"]
    ensures OrieTexts(",Data:  x") == ["", "x"]
  {
    OrieSampleWhole();
    OrieSampleRemoved();
    OrieSampleSplit();
  }
}
