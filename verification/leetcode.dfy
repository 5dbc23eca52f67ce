/** The LeetCode client's normalisation of a decoded GraphQL reply into
    `{handle, totalSolved, rating}` or null. The HTTP POST itself is an oracle. */
module LeetCode {
  import opened Wrappers
  import opened Users

  /** One element of `submitStats.acSubmissionNum`. */
  datatype SubmissionCount = SubmissionCount(difficulty: string, count: nat)

  /** `matchedUser`; `None` in `acSubmissionNum` means `submitStats` itself was missing. */
  datatype MatchedUser = MatchedUser(acSubmissionNum: Option<seq<SubmissionCount>>)

  /** `userContestRanking`, with its rating already rounded to an integer. */
  datatype ContestRanking = ContestRanking(rating: nat)

  /** `response.data.data` */
  datatype ResponseData = ResponseData(matchedUser: Option<MatchedUser>, userContestRanking: Option<ContestRanking>)

  /** `acSubmissionNum.find(item => item.difficulty === 'All')`, then its `count`. */
  function AllCount(entries: seq<SubmissionCount>): (r: Option<nat>)
    ensures r.None? <==> forall i :: 0 <= i < |entries| ==> entries[i].difficulty != "All"
    ensures r.Some? ==> exists i :: 0 <= i < |entries| && entries[i].difficulty == "All" && entries[i].count == r.value &&
                                   forall j :: 0 <= j < i ==> entries[j].difficulty != "All"
  {
    if entries == [] then None
    else if entries[0].difficulty == "All" then Some(entries[0].count)
    else
      var r := AllCount(entries[1..]);
      assert forall i :: 1 <= i < |entries| ==> entries[i] == entries[1..][i - 1];
      r
  }

  /** The body of `fetchLeetcodeStats` after the POST: `reply` is `None` when the
      request failed or the reply carried no `data`. Every error, including the
      `.count` of a missing 'All' entry, ends in the catch block and yields null. */
  function Normalise(handle: string, reply: Option<ResponseData>): (r: Option<PlatformStats>)
    ensures reply.None? || reply.value.matchedUser.None? ==> r.None?
    ensures r.Some? <==>
      && reply.Some? && reply.value.matchedUser.Some?
      && reply.value.matchedUser.value.acSubmissionNum.Some?
      && AllCount(reply.value.matchedUser.value.acSubmissionNum.value).Some?
    ensures r.Some? ==>
      && r.value.handle == handle
      && r.value.totalSolved == AllCount(reply.value.matchedUser.value.acSubmissionNum.value).value
      && r.value.rating == (if reply.value.userContestRanking.None? then 0 else reply.value.userContestRanking.value.rating)
  {
    match reply
    case None => None
    case Some(data) =>
      match data.matchedUser
      case None => None
      case Some(user) =>
        match user.acSubmissionNum
        case None => None
        case Some(entries) =>
          match AllCount(entries)
          case None => None
          case Some(total) =>
            var rating := match data.userContestRanking
              case None => 0
              case Some(ranking) => ranking.rating;
            Some(PlatformStats(handle, total, rating))
  }

  /** `fetchLeetcodeStats` as a client: the POST `post` followed by normalisation. */
  function Client(post: string -> Option<ResponseData>): Users.Client {
    handle => Normalise(handle, post(handle))
  }

  /** The client answers for the handle it was asked about, and only when the
      reply carries an 'All' entry; a reply without one yields null. */
  lemma ClientResult(post: string -> Option<ResponseData>, handle: string)
    ensures Client(post)(handle).Some? ==> Client(post)(handle).value.handle == handle
    ensures Client(post)(handle).Some? <==>
      && post(handle).Some? && post(handle).value.matchedUser.Some?
      && post(handle).value.matchedUser.value.acSubmissionNum.Some?
      && exists i :: 0 <= i < |post(handle).value.matchedUser.value.acSubmissionNum.value| &&
                     post(handle).value.matchedUser.value.acSubmissionNum.value[i].difficulty == "All"
  {
    assert Client(post)(handle) == Normalise(handle, post(handle));
  }

  /** A breakdown without the combined 'All' entry is rejected, not summed. */
  lemma PartialBreakdownRejected(handle: string, easy: nat, medium: nat, hard: nat)
    ensures Normalise(handle, Some(ResponseData(Some(MatchedUser(Some([
      SubmissionCount("Easy", easy), SubmissionCount("Medium", medium), SubmissionCount("Hard", hard)]))), None))) == None
  {
  }
}
