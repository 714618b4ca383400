/** The rows the database hands back, in the shapes the core reads them. */
module Records {
  import opened Wrappers

  /** A row of the `scores` table (types/supabase.ts). Totals are whole numbers, as the
      score form writes them. */
  datatype ScoreRow = ScoreRow(
    id: int,
    userId: string,
    evaluatorId: Option<string>,
    scoreDate: string,
    totalScore: int,
    targetScore: int,
    comments: Option<string>,
    createdAt: string)

  /** One step of a two-step store write: the write went through, or it failed with the
      message the database gave. */
  datatype WriteOutcome<T> = Written(value: T) | Failed(message: string)
}
