/** The difficulty badge of the Workouts view (`getDifficultyBadge`, Workouts.js
    lines 33-43): the difficulty text, lower-cased, picks one of four badge colours. */
module WorkoutsView {
  import opened Wrappers
  import opened Text
  import opened JsValues

  /** The badge colours; the badge's text is the difficulty itself. */
  datatype BadgeClass = BgSuccess | BgWarning | BgDanger | BgSecondary

  /** `getDifficultyBadge(difficulty)`: `(difficulty || '').toLowerCase()` compared with the
      six known names. `None` where `toLowerCase` throws: a truthy difficulty that is not
      a string has no such method. */
  function DifficultyBadge(difficulty: Option<Json>): (r: Option<BadgeClass>)
    ensures r.None? <==> Truthy(difficulty) && !difficulty.value.JStr?
    ensures r == Some(BgSuccess) <==>
              difficulty.Some? && difficulty.value.JStr? && Lower(difficulty.value.s) in {"easy", "beginner"}
    ensures r == Some(BgWarning) <==>
              difficulty.Some? && difficulty.value.JStr? && Lower(difficulty.value.s) in {"medium", "intermediate"}
    ensures r == Some(BgDanger) <==>
              difficulty.Some? && difficulty.value.JStr? && Lower(difficulty.value.s) in {"hard", "advanced"}
    ensures r == Some(BgSecondary) <==>
              !Truthy(difficulty) ||
              (difficulty.value.JStr? &&
               Lower(difficulty.value.s) !in {"easy", "beginner", "medium", "intermediate", "hard", "advanced"})
  {
    match Or(difficulty, JStr(""))
    case JStr(s) =>
      var lower := Lower(s);
      if lower == "easy" || lower == "beginner" then Some(BgSuccess)
      else if lower == "medium" || lower == "intermediate" then Some(BgWarning)
      else if lower == "hard" || lower == "advanced" then Some(BgDanger)
      else Some(BgSecondary)
    case _ => None
  }

  /** The badge does not depend on the case of the difficulty text. */
  lemma DifficultyIgnoresCase(s: string)
    ensures DifficultyBadge(Some(JStr(Lower(s)))) == DifficultyBadge(Some(JStr(s)))
  {
    LowerIdempotent(s);
  }

  /** A missing, `null` or empty difficulty gets the secondary badge. */
  lemma MissingDifficultyIsSecondary(difficulty: Option<Json>)
    requires difficulty.None? || difficulty == Some(JNull) || difficulty == Some(JStr(""))
    ensures DifficultyBadge(difficulty) == Some(BgSecondary)
  {
  }

  /** The seeded Beginner difficulty gets the success badge. */
  lemma BeginnerBadge()
    ensures DifficultyBadge(Some(JStr("Beginner"))) == Some(BgSuccess)
  {
    LowerByChars("Beginner", "beginner");
  }

  /** The seeded Intermediate difficulty gets the warning badge. */
  lemma IntermediateBadge()
    ensures DifficultyBadge(Some(JStr("Intermediate"))) == Some(BgWarning)
  {
    LowerByChars("Intermediate", "intermediate");
  }

  /** The seeded Advanced difficulty gets the danger badge. */
  lemma AdvancedBadge()
    ensures DifficultyBadge(Some(JStr("Advanced"))) == Some(BgDanger)
  {
    LowerByChars("Advanced", "advanced");
  }
}
