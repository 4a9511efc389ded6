/** The peer's publisher role (Client/Publisher.php): it sends PUBLISH
    under a fresh request id and ignores the router's answers. */
module Publisher {
  import opened Values
  import opened Messages

  class Publisher {
    /** The next request id; ids are post-incremented from 0. */
    var nextId: nat

    constructor()
      ensures nextId == 0
    {
      nextId := 0;
    }

    /** PUBLISH: the topic with empty options and the arguments, which are
        always appended (they are an array), followed by the keyword
        arguments unless those are null. */
    method Publish(conn: ConnId, topic: Value, arguments: Value, keywords: Value) returns (out: seq<Effect>)
      requires IsArray(arguments)
      modifies this
      ensures nextId == old(nextId) + 1
      ensures out == [Send(conn, Msg.Publish(Int(old(nextId)), EmptyArray, topic, Trailing(arguments, keywords)))]
      ensures out[0].msg.tail.args == arguments && (keywords != Null <==> out[0].msg.tail.PosKw?)
    {
      var requestId := Int(nextId);
      nextId := nextId + 1;
      out := [Send(conn, Msg.Publish(requestId, EmptyArray, topic, Trailing(arguments, keywords)))];
    }

    /** PUBLISHED is ignored. */
    method OnPublished(conn: ConnId, requestId: Value, publicationId: Value) returns (out: seq<Effect>)
      ensures out == []
    {
      out := [];
    }

    /** An ERROR answering a PUBLISH is ignored, once its positional
        arguments pass the `array` parameter. */
    method OnErrorMessage(conn: ConnId, requestType: Value, requestId: Value, details: Value, error: Value,
                          arguments: Value, keywords: Value)
      returns (out: seq<Effect>)
      requires IsArray(arguments)
      ensures out == []
    {
      out := [];
    }
  }
}
