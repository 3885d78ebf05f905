/** Values shared by the chat-session model: dataset rows, conversation
    turns and the outcome of the external completion call. */
module ChatTypes {

  datatype Option<+T> = None | Some(value: T)

  /** One row of the tariff dataset. Every field is kept as the text the
      prompt template interpolates, so numeric columns are already rendered. */
  datatype CountryRecord = CountryRecord(
    country: string,
    tariffPercent: string,
    importValue: string,
    topCategories: string,
    specificProducts: string,
    alternativeSuppliers: string,
    useCaseImpact: string)

  datatype Role = User | Assistant

  /** A `{role, content}` entry of the session's message list. */
  datatype Turn = Turn(role: Role, content: string)

  /** What the generative-text service answers: its text, or the message of
      the exception it raised. */
  datatype Completion = Completed(text: string) | GatewayError(message: string)

  /** The string stored under the `role` key of a message. */
  function RoleName(r: Role): (s: string)
    ensures s == "user" <==> r == User
    ensures s == "assistant" <==> r == Assistant
  {
    match r
    case User => "user"
    case Assistant => "assistant"
  }
}
