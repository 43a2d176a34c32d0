/** Replies of a chunkserver inside a chain: a write id is answered once this server and the next have both finished
    it. */
module ChainReplies {
  import opened Common
  import opened WriteSessions

  /** A write id finished here, or reported finished by the next chunkserver. */
  datatype Report = Here(writeId: nat) | Next(writeId: nat)

  function Reported(w: Wire, reports: seq<Report>): Wire
    decreases |reports|
  {
    if reports == [] then w else Told(Reported(w, reports[..|reports| - 1]), OK, reports[|reports| - 1].writeId)
  }

  ghost predicate Once(reports: seq<Report>) {
    forall i, j :: 0 <= i < j < |reports| ==> reports[i] != reports[j]
  }

  /** Whatever the order of the reports, exactly the ids reported by both are answered, each once, and exactly the
      ids reported by one of them wait for the other. */
  lemma {:induction false} ChainAnswersNeedBoth(w: Wire, reports: seq<Report>, id: nat)
    requires w.state == WriteForward && w.partial == {} && w.replies == [] && Once(reports)
    ensures var w', here, next := Reported(w, reports), Here(id) in reports, Next(id) in reports;
            && w'.state == WriteForward
            && (id in w'.partial <==> here != next)
            && multiset(w'.replies)[Reply(OK, id)] == (if here && next then 1 else 0)
    decreases |reports|
  {
    if reports != [] {
      var before, last := reports[..|reports| - 1], reports[|reports| - 1];
      assert reports == before + [last] && last !in before;
      ChainAnswersNeedBoth(w, before, id);
    }
  }
}
