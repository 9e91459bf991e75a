/** The turn model shared by the search engine and every board: the two sides
    of a game and the optional value a winner query returns. */
module Players {

  /** The two sides of a game. */
  datatype Player = White | Black {

    /** The side that moves after this one. */
    function Opponent(): (q: Player)
      ensures q != this
    {
      match this
      case White => Black
      case Black => White
    }
  }

  /** `Option<T>`, as the boards use it for cells and for the winner. */
  datatype Option<+T> = None | Some(value: T)

  /** Taking the opponent twice gives back the side one started with. */
  lemma OpponentInvolution(p: Player)
    ensures p.Opponent().Opponent() == p
    ensures p.Opponent() != p
  {
  }
}
