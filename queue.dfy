/** The admission queue as seen by order validation: a set of
    `(boardIdx, userIdx)` entries, and the one operation validation uses on it. */
module OrderQueue {

  type Entry = (int, int)

  class QueueService {
    /** The live admission entries, one per (board, user) pair. */
    var entries: set<Entry>
    /** Every call of ExitQueue so far, in call order. */
    ghost var exits: seq<Entry>

    constructor (initial: set<Entry>)
      ensures entries == initial && exits == []
    {
      entries := initial;
      exits := [];
    }

    /** Removes the entry of `userIdx` for `boardIdx`; removing an entry that
        is not there is not an error. */
    method ExitQueue(boardIdx: int, userIdx: int)
      modifies this
      ensures entries == old(entries) - {(boardIdx, userIdx)}
      ensures exits == old(exits) + [(boardIdx, userIdx)]
    {
      entries := entries - {(boardIdx, userIdx)};
      exits := exits + [(boardIdx, userIdx)];
    }
  }
}
