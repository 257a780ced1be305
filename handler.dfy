/**
 * The message-event handler: which chat messages are classified, where a
 * report about them goes, and what the report says. The handler keeps no
 * state between events; it is a function of the event and the classifier.
 */
module Handler {
  import opened Wrappers
  import opened Graphemes
  import opened Classifier

  /** Discord snowflake identifiers are unsigned 64-bit integers. */
  newtype u64 = x: int | 0 <= x < 0x1_0000_0000_0000_0000

  /** The bot's own user id; its own messages are never classified. */
  const SelfId: u64 := 1314997214866571284

  const BotTestingGuild: u64 := 145457131640848384
  const BotTestingReports: u64 := 335451227028717568
  const ProgdiscGuild: u64 := 238666723824238602
  const ProgdiscReports: u64 := 1315930244682743839

  /** The moderated communities and the channel each one's reports go to. */
  const Routes: map<u64, u64> := map[BotTestingGuild := BotTestingReports,
                                     ProgdiscGuild := ProgdiscReports]

  /** At most this many grapheme clusters of a message are quoted in a report. */
  const SummaryLimit: nat := 512

  const ReportTitle: string := "found violating message"

  datatype Author = Author(id: u64, bot: bool)

  /** An inbound message event; `link` is the message's permalink. */
  datatype Message = Message(guildId: Option<u64>, author: Author, content: seq<Cluster>, link: string)

  datatype EmbedField = EmbedField(name: string, value: string, inline: bool)

  /** The embed posted to a report channel (the timing footer is not modelled). */
  datatype Report = Report(channel: u64, title: string, fields: seq<EmbedField>)

  /** The report channel of a guild; there is no default channel. */
  function ReportChannel(guild: u64): (channel: Option<u64>)
    ensures channel.Some? <==> guild in Routes
    ensures channel.Some? ==> channel.value == Routes[guild]
  {
    if guild == BotTestingGuild then Some(BotTestingReports)
    else if guild == ProgdiscGuild then Some(ProgdiscReports)
    else None
  }

  /** The first clusters of the content, at most SummaryLimit of them. */
  function Summary(content: seq<Cluster>): (s: seq<Cluster>)
    ensures s <= content
    ensures |s| <= SummaryLimit
    ensures |content| <= SummaryLimit ==> s == content
    ensures |content| > SummaryLimit ==> |s| == SummaryLimit
  {
    if |content| <= SummaryLimit then content else content[..SummaryLimit]
  }

  /**
   * A message is in scope when it belongs to a moderated community, has text,
   * and was written by a person other than the bot itself.
   */
  predicate InScope(msg: Message)
  {
    && msg.guildId.Some?
    && msg.guildId.value in Routes
    && msg.content != []
    && !msg.author.bot
    && msg.author.id != SelfId
  }

  /**
   * The outcome of one message event: the texts passed to the classifier, in
   * call order, and the report posted, if any.
   */
  datatype Handled = Handled(queries: seq<string>, report: Option<Report>)

  /** How the handler deals with a message, given the classifier it consults. */
  function Handle(msg: Message, classify: string -> bool): (h: Handled)
    // filtered events never reach the classifier and post nothing
    ensures !InScope(msg) ==> h.queries == [] && h.report.None?
    // an in-scope event is classified exactly once, on its own text
    ensures InScope(msg) ==> h.queries == [Text(msg.content)]
    // a report is posted exactly when the one classification said true
    ensures h.report.Some? <==> h.queries != [] && classify(h.queries[0])
    ensures h.report.Some? ==> h.report.value.channel == Routes[msg.guildId.value]
    ensures h.report.Some? ==> h.report.value.title == ReportTitle
    ensures h.report.Some? ==> |h.report.value.fields| == 2
    ensures h.report.Some? ==> h.report.value.fields[0].name == "summary"
                               && h.report.value.fields[0].value == Text(Summary(msg.content))
    ensures h.report.Some? ==> h.report.value.fields[1].name == "message link"
                               && h.report.value.fields[1].value == msg.link
  {
    match msg.guildId
    case None => Handled([], None)
    case Some(guild) =>
      if Text(msg.content) == [] || msg.author.bot || msg.author.id == SelfId then Handled([], None)
      else
        match ReportChannel(guild)
        case None => Handled([], None)
        case Some(channel) =>
          var violates := classify(Text(msg.content));
          if violates then
            Handled([Text(msg.content)],
                    Some(Report(channel, ReportTitle,
                                [EmbedField("summary", Text(Summary(msg.content)), false),
                                 EmbedField("message link", msg.link, false)])))
          else Handled([Text(msg.content)], None)
  }

  /**
   * The summary never ends inside a cluster: the message text is the summary
   * text followed by the text of the clusters left out, and the summary is
   * never empty for a message that has text.
   */
  lemma SummaryEndsOnClusterBoundary(content: seq<Cluster>)
    ensures Text(content) == Text(Summary(content)) + Text(content[|Summary(content)|..])
    ensures Text(Summary(content)) <= Text(content)
    ensures content != [] ==> Text(Summary(content)) != []
  {
    SplitAtCluster(content, |Summary(content)|);
  }

  /** The outcome depends on the classifier only through its answer for the message text. */
  lemma ClassifierSeesOnlyMessageText(msg: Message, classify1: string -> bool, classify2: string -> bool)
    requires classify1(Text(msg.content)) == classify2(Text(msg.content))
    ensures Handle(msg, classify1) == Handle(msg, classify2)
  {
  }

  /**
   * End to end: with the language-model classifier plugged in, a report is
   * posted only if the model call succeeded, its first choice had content, and
   * that content parsed to {"violates_rules": true}; the report quotes a
   * cluster-aligned prefix of the message.
   */
  lemma ReportOnlyOnPositiveVerdict(msg: Message,
                                    llm: string -> Result<ChatResponse, LlmError>,
                                    parse: string -> Option<Evaluation>)
    requires Handle(msg, c => EvaluateMessage(c, llm, parse)).report.Some?
    ensures InScope(msg)
    ensures AnswerText(llm(Text(msg.content))).Some?
    ensures parse(AnswerText(llm(Text(msg.content))).value) == Some(Evaluation(true))
    ensures Handle(msg, c => EvaluateMessage(c, llm, parse)).report.value.fields[0].value <= Text(msg.content)
  {
    FailClosed(Text(msg.content), llm, parse);
    SummaryEndsOnClusterBoundary(msg.content);
  }
}
