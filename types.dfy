/** The records of types.ts that the modelled core passes around. */
module Types {

  /** A student's profile. `languageLevel` is a CEFR code chosen on the profile form. */
  datatype UserProfile = UserProfile(
    name: string,
    field: string,
    skills: seq<string>,
    visaType: string,
    languageLevel: string,
    preferences: string)

  /** A citation attached to a web-grounded answer. */
  datatype GroundingSource = GroundingSource(title: string, uri: string)

  /** What a job search shows: the report text and the cited sources, in order. */
  datatype SearchResult = SearchResult(text: string, sources: seq<GroundingSource>)

  /** The structured CV review. The score is a JSON number; the model keeps it as an integer. */
  datatype CVAnalysis = CVAnalysis(
    formattingScore: int,
    contentSuggestions: seq<string>,
    culturalTips: seq<string>,
    reformattedCV: string)

  /** The `feedback` part of InterviewFeedback: the report produced at the end of a session. */
  datatype Feedback = Feedback(strengths: seq<string>, weaknesses: seq<string>, culturalNuance: string)

  datatype Speaker = AI | User

  /** One entry of an interview transcript. */
  datatype Turn = Turn(speaker: Speaker, text: string)
}
