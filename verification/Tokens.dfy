/** Random identifiers as a stream in which some identifier is free; a collision draws the next one. */
module Tokens {

  /** The first identifier of the stream, from index `n` on, that is not taken. */
  function FirstFree<T>(tokens: nat -> string, taken: map<string, T>, n: nat, bound: nat): (id: string)
    requires n <= bound && tokens(bound) !in taken
    ensures id !in taken
    decreases bound - n
  {
    if tokens(n) !in taken then tokens(n) else FirstFree(tokens, taken, n + 1, bound)
  }

  method Draw<T>(tokens: nat -> string, taken: map<string, T>, ghost bound: nat) returns (id: string)
    requires tokens(bound) !in taken
    ensures id == FirstFree(tokens, taken, 0, bound)
  {
    var n := 0;
    while tokens(n) in taken
      invariant n <= bound
      invariant FirstFree(tokens, taken, 0, bound) == FirstFree(tokens, taken, n, bound)
      decreases bound - n
    {
      n := n + 1;
    }
    id := tokens(n);
  }
}
