/** The sixteen top-level views of the single-page app and which of them are public. */
module Views {
  datatype View =
    | Home | Channel | Script | Trending | Admin | KeywordAnalysis | KeywordVideo | Thumbnail
    | CommentAnalysis | Library | Battle | ShortsGenerator | Notice | ImageGen | VoiceStudio | Calendar

  /** `publicViews = ['home', 'notice']`: the views shown without a user. */
  predicate IsPublic(v: View) {
    v == Home || v == Notice
  }
}
