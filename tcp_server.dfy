/**
  The reply rule of the stand-alone test server (PythonTCPServer/server.py):
  every inbound text is answered on its own, from its content alone.
*/
module TcpServer {
  import opened Common
  import opened Text
  import opened Wire

  /**
    The answer to one message: telemetry lines get "received", the probe gets
    "Connection Established", anything else gets nothing.
  */
  function Reply(message: string): (r: Option<string>)
    ensures r == Some(AckToken) <==> StartsWith(message, DataPrefix)
    ensures r == Some(EstablishedToken) <==> message == ProbeMessage
    ensures r.None? <==> !StartsWith(message, DataPrefix) && message != ProbeMessage
  {
    assert ProbeMessage[0] != DataPrefix[0];
    if StartsWith(message, DataPrefix) then Some(AckToken)
    else if message == ProbeMessage then Some(EstablishedToken)
    else None
  }

  /** The replies sent over one connection, in the order of the messages that caused them. */
  function Serve(messages: seq<string>): (replies: seq<string>)
    ensures |replies| <= |messages|
    ensures forall i :: 0 <= i < |replies| ==> replies[i] == AckToken || replies[i] == EstablishedToken
    decreases |messages|
  {
    if messages == [] then []
    else
      var rest := Serve(messages[1..]);
      match Reply(messages[0])
      case None => rest
      case Some(r) => [r] + rest
  }

  /**
    No state is carried from one message to the next: serving two stretches
    of a connection one after the other gives the same replies as serving
    them together.
  */
  lemma {:induction false} ServeConcat(a: seq<string>, b: seq<string>)
    ensures Serve(a + b) == Serve(a) + Serve(b)
    decreases |a|
  {
    if a == [] {
      assert a + b == b;
    } else {
      assert (a + b)[0] == a[0] && (a + b)[1..] == a[1..] + b;
      ServeConcat(a[1..], b);
    }
  }

  /** Each probe and each telemetry line gets exactly one reply: the count of replies is the count of such messages. */
  function Answerable(messages: seq<string>): nat
    decreases |messages|
  {
    if messages == [] then 0
    else (if StartsWith(messages[0], DataPrefix) || messages[0] == ProbeMessage then 1 else 0) + Answerable(messages[1..])
  }

  lemma {:induction false} ServeCount(messages: seq<string>)
    ensures |Serve(messages)| == Answerable(messages)
    decreases |messages|
  {
    if messages != [] {
      ServeCount(messages[1..]);
    }
  }
}
