/** Failure values of the rule engine. The engine raises exceptions; here each
    raising operation returns a Result instead. */
module Results {

  datatype Error =
    | InvalidCard                    // ValueError: a symbol outside RANK_ORDER
    | MissingCards(cards: seq<int>)  // ValueError from remove_combo_from_hand, carrying the shortfall
    | EmptyHand                      // AssertionError from get_computer_move

  datatype Result<T> = Ok(value: T) | Err(error: Error)

  datatype Option<T> = None | Some(value: T)
}
