/** The enumerations of types.ts and the small wrapper types the rest of the model uses. */
module Types {

  /** A value that may be absent: JavaScript's `null` / `undefined`. */
  datatype Option<+T> = None | Some(value: T)

  /** The result of an operation that can throw: `Ok` for a normal return, `Err` for the exception. */
  datatype Result<+T, +E> = Ok(value: T) | Err(error: E)

  /** The four screens of the application, in declaration order (`enum Screen`). */
  datatype Screen = Splash | Main | Quiz | Credits

  /** The three topics of the hub (`enum Topic`); `Title` is the enum's string value. */
  datatype Topic = Temperature | Composition | Neighbors
  {
    function Title(): string
    {
      match this
      case Temperature => "Minha Temperatura"
      case Composition => "Do que sou feito?"
      case Neighbors => "Meus Vizinhos"
    }
  }

  /** A JavaScript value, as far as the model reads one: a function, a boolean or a string. */
  datatype JsValue = JsFunction | JsBool(b: bool) | JsString(s: string)

  /** JavaScript truthiness of a value that may be `null` or `undefined` (`None`): functions are
      truthy, `false` and the empty string are falsy. */
  predicate Truthy(v: Option<JsValue>)
  {
    match v
    case None => false
    case Some(JsFunction) => true
    case Some(JsBool(b)) => b
    case Some(JsString(s)) => s != ""
  }

  /** The eight narration identifiers (`type AudioKey`). `CreditsNarration` is the source's
      `'credits'`; the other constructors are the source's names, capitalised. */
  datatype AudioKey =
    | MainScreenWelcome
    | TemperatureTopic
    | CompositionTopic
    | NeighborsTopic
    | QuizQuestion
    | QuizCorrect
    | QuizWrong
    | CreditsNarration
}
