/**
 * The Slack outbox (app/slack/slack.go): messages accumulate in the client
 * and are drained, all at once, by SendMessages. The HTTP POST itself is not
 * performed: SendMessages returns the request it would hand to the network.
 */
module Slack {
  import opened Fmt
  import Configuration

  const AlertColor: string := "#a6364f"
  const InfoColor: string := "#36a64f"
  const JsonContentType: string := "application/json"

  /** One message of the outbox. */
  datatype Attachment = Attachment(fallback: Text, color: string, authorName: string, text: Text)

  /** The JSON body posted to the webhook. */
  datatype SlackMessage = SlackMessage(text: Text, messages: seq<Attachment>)

  /** An HTTP POST request: URL, content type and the body before marshalling. */
  datatype Post = Post(url: string, contentType: string, body: SlackMessage)

  /** A message attributed to `appName`, coloured as an alert exactly when
      `isAlert`. */
  function NewAttachment(message: Text, appName: string, isAlert: bool): (a: Attachment)
    ensures a.fallback == message && a.text == message && a.authorName == appName
    ensures a.color == AlertColor <==> isAlert
    ensures a.color == InfoColor <==> !isAlert
  {
    var clr := if isAlert then AlertColor else InfoColor;
    assert AlertColor[1] != InfoColor[1];
    Attachment(message, clr, appName, message)
  }

  class SlackClient {
    var endpoint: string
    var appName: string
    var messages: seq<Attachment>

    constructor NewSlackClient(config: Configuration.Configuration)
      ensures endpoint == config.slackEndpoint && appName == config.appName
      ensures messages == []
    {
      endpoint := config.slackEndpoint;
      appName := config.appName;
      messages := [];
    }

    /** Queues an informational message after the ones already waiting. */
    method AddMessage(message: Text)
      modifies this`messages
      ensures messages == old(messages) + [NewAttachment(message, appName, false)]
    {
      messages := messages + [NewAttachment(message, appName, false)];
    }

    /** Queues an alert after the messages already waiting. */
    method AddAlert(message: Text)
      modifies this`messages
      ensures messages == old(messages) + [NewAttachment(message, appName, true)]
    {
      messages := messages + [NewAttachment(message, appName, true)];
    }

    /** Posts everything queued so far and empties the outbox, whatever the
        outcome of the post: nothing is kept for a retry. */
    method SendMessages() returns (request: Post)
      modifies this`messages
      ensures request == Post(endpoint, JsonContentType,
                              SlackMessage(Sprintf("Message from %s", [Str(appName)]), old(messages)))
      ensures messages == []
    {
      var msg := SlackMessage(Sprintf("Message from %s", [Str(appName)]), messages);
      request := Post(endpoint, JsonContentType, msg);
      messages := [];
    }
  }
}
