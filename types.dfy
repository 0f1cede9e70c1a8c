/** The record kept by the store's `resume` slice (src/types/index.ts). */
module Types {

  datatype Option<+T> = None | Some(value: T)

  /** A file handle picked in the browser; only its identity matters here. */
  datatype File = File(name: string)

  /**
   * The session record. `error` is `string | null`, so it is an Option.
   * `suggestions`, `keySkillsAnalysis` and `improvementAreas` are declared by the
   * interface but the initial value never sets them and no reducer assigns them:
   * they are Options whose None stands for "the property is absent".
   * `score` is an opaque number; the model keeps it as an unbounded integer.
   */
  datatype ResumeState = ResumeState(
    resumeText: string,
    jobDescription: string,
    keywords: seq<string>,
    matchedKeywords: seq<string>,
    score: int,
    isLoading: bool,
    error: Option<string>,
    fileUploadProgress: int,
    suggestions: Option<seq<string>>,
    keySkillsAnalysis: Option<string>,
    improvementAreas: Option<string>)
}
