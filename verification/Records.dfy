/** Where the wait records of an object with one wait list are. */
module Records {
  import opened Basics

  /** Of a thread that does not wait, on the list, or detached by a thread about to
      wake it. */
  datatype Place = Nowhere | Listed | InHand(who: Tid)

  function PlaceIn(place: map<Tid, Place>, t: Tid): Place {
    if t in place then place[t] else Nowhere
  }
}
