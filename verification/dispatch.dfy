/**
 The notification dispatcher of index.js: `notifySlack` handles one sensor
 event, and `makeRequest` builds the chat payload and hands it to the HTTP
 client.

 The HTTP client, the environment and the console are outside the model.
 The webhook URL is a parameter, whether the call to the client throws is a
 parameter, and the calls the code makes to its collaborators are returned
 as a list of effects.
 */
module Dispatch {
  import opened Wrappers
  import opened Status

  /** One reading: the brew time (unix seconds) and the fill ratio. */
  datatype SensorEvent = SensorEvent(timestamp: int, measure: real)

  /** A text object of the chat payload. `FillLevelMrkdwn` is the markdown
      line `*Fill level:* <fill>%`; how the number is printed is not modelled,
      so the fill stays a number. */
  datatype TextObject =
    | Mrkdwn(text: string)
    | PlainText(text: string)
    | FillLevelMrkdwn(fill: real)

  /** A layout block of the chat payload. */
  datatype Block =
    | Section(content: TextObject)
    | Context(elements: seq<TextObject>)

  /** The body of the post: fallback text and the blocks. */
  datatype Payload = Payload(text: string, blocks: seq<Block>)

  /** The three values a payload carries. */
  datatype Fields = Fields(message: string, freshness: string, fill: real)

  /** The calls one invocation makes to its collaborators. `PostAttempt` is
      the call to the HTTP client; the client sends asynchronously, so the
      effect records that the call was made, not that anything was
      delivered. */
  datatype Effect =
    | PostAttempt(url: string, payload: Payload)
    | LogPosted(url: string)
    | LogPostFailed

  const Title: string := "Coffee Status Update"
  const Heading: Block := Section(Mrkdwn("*Coffee Status Update*"))
  const FreshnessPrefix: string := "*Freshness:* "

  /** Notifications go out only above this fill percentage. */
  const MinFillPercent: real := 5.0

  /** The payload built by `makeRequest`: a heading section, a context block
      holding the fill line then the freshness line, and a plain-text section
      holding the message. */
  function MakePayload(message: string, freshness: string, fill: real): (p: Payload)
    ensures p.text == Title && |p.blocks| == 3 && p.blocks[0] == Heading
    ensures ReadFields(p) == Some(Fields(message, freshness, fill))
  {
    Payload(Title, [
      Heading,
      Context([FillLevelMrkdwn(fill), Mrkdwn(FreshnessPrefix + freshness)]),
      Section(PlainText(message))
    ])
  }

  /** Recovers the three values from a payload of the fixed shape, and
      rejects any other payload. */
  function ReadFields(p: Payload): Option<Fields> {
    if p.text == Title && |p.blocks| == 3 && p.blocks[0] == Heading
       && p.blocks[1].Context? && |p.blocks[1].elements| == 2
       && p.blocks[1].elements[0].FillLevelMrkdwn?
       && p.blocks[1].elements[1].Mrkdwn?
       && FreshnessPrefix <= p.blocks[1].elements[1].text
       && p.blocks[2].Section? && p.blocks[2].content.PlainText?
    then
      Some(Fields(p.blocks[2].content.text,
                  p.blocks[1].elements[1].text[|FreshnessPrefix|..],
                  p.blocks[1].elements[0].fill))
    else None
  }

  /** Nothing but the three values varies between payloads: any payload the
      reader accepts is the one built from the values it reads. */
  lemma ReadFieldsInverse(p: Payload, f: Fields)
    requires ReadFields(p) == Some(f)
    ensures MakePayload(f.message, f.freshness, f.fill) == p
  {
    var line := p.blocks[1].elements[1].text;
    assert FreshnessPrefix + line[|FreshnessPrefix|..] == line;
    assert p.blocks[1] == Context([FillLevelMrkdwn(f.fill), Mrkdwn(FreshnessPrefix + f.freshness)]);
    assert p.blocks == MakePayload(f.message, f.freshness, f.fill).blocks;
  }

  /** `makeRequest`: one call to the HTTP client, then one log line. A call that
      throws is caught and logged; the failure goes no further. */
  function MakeRequest(url: string, message: string, freshness: string, fill: real, postThrows: bool): (effects: seq<Effect>)
    ensures |effects| == 2
    ensures effects[0].PostAttempt? && effects[0].url == url
    ensures ReadFields(effects[0].payload) == Some(Fields(message, freshness, fill))
    ensures !postThrows <==> effects[1] == LogPosted(url)
    ensures postThrows <==> effects[1] == LogPostFailed
  {
    [PostAttempt(url, MakePayload(message, freshness, fill)),
     if postThrows then LogPostFailed else LogPosted(url)]
  }

  /** `notifySlack`: classify the reading and attempt a post when the fill
      percentage is above five. */
  function NotifySlack(url: string, event: SensorEvent, postThrows: bool): (effects: seq<Effect>)
    ensures effects != [] <==> event.measure * 100.0 > MinFillPercent
    ensures effects != [] ==>
      && |effects| == 2
      && effects[0].PostAttempt? && effects[0].url == url
      && ReadFields(effects[0].payload)
         == Some(Fields(DetermineMessage(event.measure), PlaceholderFreshness, event.measure * 100.0))
  {
    var message := DetermineMessage(event.measure);
    var freshness := DetermineFreshness(event.timestamp, event.measure);
    var fill := event.measure * 100.0;
    if fill > MinFillPercent then MakeRequest(url, message, freshness, fill, postThrows) else []
  }

  /** A call to the HTTP client that throws changes only the log line: the
      same post is attempted for the same URL either way, exactly one line is
      logged, and no error reaches the caller. */
  lemma DeliveryFailureIsSwallowed(url: string, event: SensorEvent)
    ensures NotifySlack(url, event, true) == [] <==> NotifySlack(url, event, false) == []
    ensures NotifySlack(url, event, true) != [] ==>
      && NotifySlack(url, event, true)[0] == NotifySlack(url, event, false)[0]
      && NotifySlack(url, event, true)[1] == LogPostFailed
      && NotifySlack(url, event, false)[1] == LogPosted(url)
  {
  }
}
