/** Rows of the two database tables and the parsed JSON bodies the POST routes accept. */
module Records {

  /** A value that may be null or absent (a request header, a JSON body field). */
  datatype Option<T> = None | Some(value: T)

  /** A row of the `suggestions` table: the columns its INSERT names. The vote
      columns hold the serialised lists the service writes at creation. */
  datatype Suggestion = Suggestion(
    id: string, context: string, author: string, avatar: string,
    guild: string, channel: string, message: string, status: string,
    upvotes: string, downvotes: string)

  /** A row of the `reports` table: the same columns without the vote lists. */
  datatype Report = Report(
    id: string, context: string, author: string, avatar: string,
    guild: string, channel: string, message: string, status: string)

  /** Body of `POST /submit`; any field may be null or missing. */
  datatype SubmitBody = SubmitBody(
    id: Option<string>, context: Option<string>, author: Option<string>, avatar: Option<string>,
    guild: Option<string>, channel: Option<string>, message: Option<string>, status: Option<string>)
  {
    /** Every required field is present. */
    predicate Complete() {
      && id.Some? && context.Some? && author.Some? && avatar.Some?
      && guild.Some? && channel.Some? && message.Some? && status.Some?
    }
  }

  /** Body of `POST /setstatus`. */
  datatype StatusBody = StatusBody(id: Option<string>, guild: Option<string>, status: Option<string>)
  {
    predicate Complete() { id.Some? && guild.Some? && status.Some? }
  }

  /** Body of `POST /suggestions/upvote` and `POST /suggestions/downvote`. */
  datatype VoteBody = VoteBody(id: Option<string>, guild: Option<string>, userId: Option<string>)
  {
    predicate Complete() { id.Some? && guild.Some? && userId.Some? }
  }

  /** The serialised empty vote list a new suggestion starts with. */
  const EmptyVotes: string := "[]"

  /** The suggestions row the INSERT writes for a complete body. */
  function NewSuggestion(b: SubmitBody): Suggestion
    requires b.Complete()
  {
    Suggestion(b.id.value, b.context.value, b.author.value, b.avatar.value,
               b.guild.value, b.channel.value, b.message.value, b.status.value,
               EmptyVotes, EmptyVotes)
  }

  /** The reports row the INSERT writes for a complete body. */
  function NewReport(b: SubmitBody): Report
    requires b.Complete()
  {
    Report(b.id.value, b.context.value, b.author.value, b.avatar.value,
           b.guild.value, b.channel.value, b.message.value, b.status.value)
  }
}
