/** Splitting a reply into Telegram-sized messages (progrev_bot.py:177-184).
    Telegram refuses messages longer than TELEGRAM_LIMIT characters, so a
    longer reply goes out as consecutive slices. */
module Chunking {

  /** The platform's message-size limit, in characters. */
  const TELEGRAM_LIMIT: nat := 4096

  /** The slices `s[i:i + 4096]` for `i` in `range(0, len(s), 4096)`, in order. */
  function Pieces(s: string): seq<string>
    decreases |s|
  {
    if s == [] then []
    else
      var n := if |s| < TELEGRAM_LIMIT then |s| else TELEGRAM_LIMIT;
      [s[..n]] + Pieces(s[n..])
  }

  /** The messages `handle_message` sends for `reply`: the reply itself when it
      fits in one message (even when it is empty), the slices otherwise. */
  function Chunks(reply: string): seq<string>
  {
    if |reply| <= TELEGRAM_LIMIT then [reply] else Pieces(reply)
  }

  /** The messages joined back together, in the order they were sent. */
  function Concat(parts: seq<string>): string
  {
    if parts == [] then "" else parts[0] + Concat(parts[1..])
  }

  /** The number of slices `range(0, n, 4096)` yields: n / 4096 rounded up. */
  function CeilDiv(n: nat): nat
  {
    (n + TELEGRAM_LIMIT - 1) / TELEGRAM_LIMIT
  }

  /** Joining the slices gives back the text exactly. */
  lemma {:induction false} PiecesConcat(s: string)
    ensures Concat(Pieces(s)) == s
    decreases |s|
  {
    if s != [] {
      var n := if |s| < TELEGRAM_LIMIT then |s| else TELEGRAM_LIMIT;
      PiecesConcat(s[n..]);
      assert Pieces(s) == [s[..n]] + Pieces(s[n..]);
      assert s[..n] + s[n..] == s;
    }
  }

  /** There are ceil(|s| / 4096) slices; each is non-empty and within the
      limit, and all but the last are exactly at the limit. */
  lemma {:induction false} PiecesSizes(s: string)
    ensures |Pieces(s)| == CeilDiv(|s|)
    ensures forall k :: 0 <= k < |Pieces(s)| ==> 1 <= |Pieces(s)[k]| <= TELEGRAM_LIMIT
    ensures forall k :: 0 <= k < |Pieces(s)| - 1 ==> |Pieces(s)[k]| == TELEGRAM_LIMIT
    decreases |s|
  {
    if s != [] {
      var n := if |s| < TELEGRAM_LIMIT then |s| else TELEGRAM_LIMIT;
      var rest := Pieces(s[n..]);
      PiecesSizes(s[n..]);
      assert Pieces(s) == [s[..n]] + rest;
      if n < TELEGRAM_LIMIT {
        assert rest == [];
      }
    }
  }

  /** What the relay sends for a reply of length L: one message when L <= 4096
      (the empty reply included), otherwise ceil(L / 4096) messages, each of 1
      to 4096 characters, all but the last of exactly 4096; the messages always
      join back to the reply. */
  lemma ChunksSpec(reply: string)
    ensures Concat(Chunks(reply)) == reply
    ensures |reply| <= TELEGRAM_LIMIT ==> Chunks(reply) == [reply]
    ensures |reply| > TELEGRAM_LIMIT ==> |Chunks(reply)| == CeilDiv(|reply|)
    ensures reply != [] ==>
      forall k :: 0 <= k < |Chunks(reply)| ==> 1 <= |Chunks(reply)[k]| <= TELEGRAM_LIMIT
    ensures forall k :: 0 <= k < |Chunks(reply)| - 1 ==> |Chunks(reply)[k]| == TELEGRAM_LIMIT
  {
    if |reply| <= TELEGRAM_LIMIT {
      assert Concat([reply]) == reply + Concat([]);
    } else {
      PiecesConcat(reply);
      PiecesSizes(reply);
    }
  }

  /** The single-message branch matters only for the empty reply: for any other
      reply the slicing loop alone would send the same messages. */
  lemma {:induction false} ChunksAgreeWithPieces(reply: string)
    ensures reply != [] <==> Chunks(reply) == Pieces(reply)
  {
    if reply == [] {
      assert Pieces(reply) == [];
    } else if |reply| <= TELEGRAM_LIMIT {
      assert reply[..|reply|] == reply;
      assert Pieces(reply[|reply|..]) == [];
      assert Pieces(reply) == [reply[..|reply|]] + Pieces(reply[|reply|..]);
    }
  }

  /** The sending step of `handle_message`: one send when the reply fits,
      otherwise one send per slice of the `range(0, len(reply), 4096)` loop.
      The sends are returned in order. */
  method SendReply(reply: string) returns (sent: seq<string>)
    ensures sent == Chunks(reply)
  {
    if |reply| <= TELEGRAM_LIMIT {
      sent := [reply];
    } else {
      sent := [];
      var i := 0;
      while i < |reply|
        invariant 0 <= i
        invariant sent + Pieces(reply[(if i <= |reply| then i else |reply|)..]) == Pieces(reply)
        decreases |reply| - i
      {
        var end := if i + TELEGRAM_LIMIT < |reply| then i + TELEGRAM_LIMIT else |reply|;
        assert Pieces(reply[i..]) == [reply[i..end]] + Pieces(reply[end..]) by {
          assert reply[i..][..end - i] == reply[i..end];
          assert reply[i..][end - i..] == reply[end..];
        }
        sent := sent + [reply[i..end]];
        i := i + TELEGRAM_LIMIT;
      }
      assert reply[|reply|..] == [];
    }
  }
}
