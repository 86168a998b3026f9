/** The narration asset table of audioAssets.ts and the availability test that useNarration.ts applies to it. */
module AudioAssets {
  import opened Types

  /** The marker with which an entry that has no recorded audio yet begins. */
  const PlaceholderPrefix: string := "// PLACEHOLDER"

  /** The text of a placeholder entry: the marker, then the transcript the recording is meant to speak. */
  function Placeholder(transcript: string): (url: string)
  {
    PlaceholderPrefix + ": Base64 encoded audio for: \"" + transcript + "\""
  }

  /** The asset table: every key is present (a `Record<AudioKey, string>`). */
  const Assets: map<AudioKey, string> := map[
    MainScreenWelcome := "./public/audio-1.wav",
    TemperatureTopic := "./public/audio-2.wav",
    CompositionTopic := Placeholder("Quando minha luz passa por um prisma, ela mostra um arco-íris com linhas escuras. Essas linhas são as impressões digitais dos elementos químicos que me formam. Sou feito principalmente de Hidrogênio e Hélio. Curiosidade: o Hélio foi descoberto em mim antes de ser encontrado na Terra!"),
    NeighborsTopic := Placeholder("A minha luz viaja pelo espaço e atravessa a atmosfera dos planetas. Os gases de cada planeta roubam algumas cores da minha luz. Analisando as cores que faltam, os cientistas descobrem do que são feitas as atmosferas dos meus vizinhos! É como se cada planeta deixasse sua assinatura na minha luz."),
    QuizQuestion := Placeholder("Vamos testar seus conhecimentos! Esta impressão digital de luz, rica em Metano, pertence a qual gigante gasoso?"),
    QuizCorrect := Placeholder("Correto! A atmosfera azul de Netuno é rica em Metano, que absorve fortemente a luz vermelha, criando essas impressões escuras no espectro."),
    QuizWrong := Placeholder("Quase! A resposta correta é Netuno. A atmosfera de Netuno é rica em Metano."),
    CreditsNarration := Placeholder("Obrigado por explorar os segredos da minha luz! Continue curioso e sempre olhe para as estrelas. Até a próxima aventura!")
  ]

  /** `audioAssets[key]`; the table is total, so the lookup never fails. */
  function AudioUrl(key: AudioKey): (url: string)
  {
    match key
    case MainScreenWelcome => Assets[MainScreenWelcome]
    case TemperatureTopic => Assets[TemperatureTopic]
    case CompositionTopic => Assets[CompositionTopic]
    case NeighborsTopic => Assets[NeighborsTopic]
    case QuizQuestion => Assets[QuizQuestion]
    case QuizCorrect => Assets[QuizCorrect]
    case QuizWrong => Assets[QuizWrong]
    case CreditsNarration => Assets[CreditsNarration]
  }

  /** `url.startsWith('// PLACEHOLDER')`. */
  predicate IsPlaceholder(url: string)
  {
    PlaceholderPrefix <= url
  }

  /** The negation of the guard `!audioUrl || audioUrl.startsWith('// PLACEHOLDER')`:
      the URL is a non-empty string that is not a placeholder. */
  predicate Usable(url: string)
  {
    url != "" && !IsPlaceholder(url)
  }

  /** The keys whose recordings exist. */
  predicate HasRecording(key: AudioKey)
  {
    key == MainScreenWelcome || key == TemperatureTopic
  }

  /** Exactly two keys have real recordings; the other six can never be loaded. */
  lemma UsableKeys(key: AudioKey)
    ensures Usable(AudioUrl(key)) <==> HasRecording(key)
  {
    match key
    case MainScreenWelcome =>
      assert AudioUrl(key)[0] == '.';
    case TemperatureTopic =>
      assert AudioUrl(key)[0] == '.';
    case _ =>
      var rest := AudioUrl(key)[|PlaceholderPrefix|..];
      assert AudioUrl(key) == PlaceholderPrefix + rest;
  }
}
