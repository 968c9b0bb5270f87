/**
 * `Tape` (imsta.rs): a read pointer into a word buffer plus the bounds-checked counter
 * `offset`. The pointer is kept as the index `pos` into the buffer. `get_next` and `skip` move
 * both together, `move_to` moves only the pointer, so the two can drift apart.
 */
module TapeCursor {
  import opened Wrappers
  import opened Values
  import opened Words

  /** The buffer a tape reads from and the `size` its bounds check uses. */
  datatype Code = Code(words: seq<Word>, size: nat)

  /** Where a tape stands: the read pointer as an index, and the `offset` counter. */
  datatype Cursor = Cursor(pos: int, offset: nat)

  /** A raw pointer read: defined only inside the buffer. */
  function At(code: Code, pos: int): (r: Result<Word>)
    ensures r.Ok? <==> 0 <= pos < |code.words|
    ensures r.Ok? ==> r.value == code.words[pos]
    ensures r.Err? ==> r.error == WildRead
  {
    if 0 <= pos < |code.words| then Ok(code.words[pos]) else Err(WildRead)
  }

  /** `get_next`: panics once `offset` reaches `size`, else reads at the pointer and advances both. */
  function Next(code: Code, c: Cursor): (r: Result<(Word, Cursor)>)
    ensures r == Err(OutOfRange) <==> c.offset >= code.size
    ensures r.Ok? <==> c.offset < code.size && 0 <= c.pos < |code.words|
    ensures r.Ok? ==> r.value == (code.words[c.pos], Cursor(c.pos + 1, c.offset + 1))
  {
    if c.offset >= code.size then Err(OutOfRange)
    else
      var w :- At(code, c.pos);
      Ok((w, Cursor(c.pos + 1, c.offset + 1)))
  }

  /** `get_next() as usize`: the next word as a slot, offset or count. */
  function NextIndex(code: Code, c: Cursor): (r: Result<(nat, Cursor)>)
    ensures r.Ok? <==> Next(code, c).Ok? && AsInt(Next(code, c).value.0).Some?
    ensures r.Ok? ==> r.value == (AsInt(Next(code, c).value.0).value, Next(code, c).value.1)
  {
    var (w, c1) :- Next(code, c);
    match AsInt(w)
    case None => Err(IllTyped)
    case Some(n) => Ok((n, c1))
  }

  /** `get_next_float`: the next word's bits as an f64. */
  function NextNum(code: Code, c: Cursor): (r: Result<(Num, Cursor)>)
    ensures r.Ok? <==> Next(code, c).Ok? && !Next(code, c).value.0.Op?
    ensures r.Ok? ==> r.value.1 == Next(code, c).value.1
    ensures r.Ok? ==> AsNum(Next(code, c).value.0) == Some(r.value.0)
  {
    var (w, c1) :- Next(code, c);
    match AsNum(w)
    case None => Err(IllTyped)
    case Some(x) => Ok((x, c1))
  }

  /** `get_next_func`: the next word taken as a dispatch function. */
  function NextOp(code: Code, c: Cursor): (r: Result<(Opcode, Cursor)>)
    ensures r.Ok? <==> Next(code, c).Ok? && Next(code, c).value.0.Op?
    ensures r.Ok? ==> r.value == (Next(code, c).value.0.code, Cursor(c.pos + 1, c.offset + 1))
  {
    var (w, c1) :- Next(code, c);
    match AsOpcode(w)
    case None => Err(IllTyped)
    case Some(op) => Ok((op, c1))
  }

  /** `peek`: the word after the pointer, unchecked against `size`. */
  function PeekAt(code: Code, c: Cursor): (r: Result<Word>)
    ensures r == At(code, c.pos + 1)
  {
    At(code, c.pos + 1)
  }

  /** `read`: the word at the pointer, unchecked against `size`. */
  function ReadAt(code: Code, c: Cursor): (r: Result<Word>)
    ensures r == At(code, c.pos)
  {
    At(code, c.pos)
  }

  /** `skip(amount)`: pointer and offset both advance by `amount`. */
  function Skipped(c: Cursor, amount: nat): (r: Cursor)
    ensures r.pos - c.pos == amount && r.offset - c.offset == amount
  {
    Cursor(c.pos + amount, c.offset + amount)
  }

  /** `move_to(dest)`: the pointer goes to `dest` counted from where `offset` says the tape starts. */
  function Moved(c: Cursor, dest: nat): (r: Cursor)
    ensures r.offset == c.offset
    ensures r.pos - r.offset == dest - c.offset + (c.pos - c.offset)
  {
    Cursor(dest + (c.pos - c.offset), c.offset)
  }

  /** How far the pointer stands from where `offset` says it should. */
  function Drift(c: Cursor): int {
    c.pos - c.offset
  }

  /** `get_next`, `skip` and `restore(save())` keep the drift; `move_to(dest)` shifts it by `dest - offset`. */
  lemma DriftLaws(code: Code, c: Cursor, amount: nat, dest: nat)
    ensures Next(code, c).Ok? ==> Drift(Next(code, c).value.1) == Drift(c)
    ensures Drift(Skipped(c, amount)) == Drift(c)
    ensures Drift(Moved(c, dest)) == Drift(c) + dest - c.offset
    ensures Drift(c) == 0 ==> Moved(c, dest) == Cursor(dest, c.offset)
  {
  }

  /** After `move_to(dest)` from an unsynced-by-`k` cursor, the next `get_next` reads `dest + k`. */
  lemma MovedThenNext(code: Code, c: Cursor, dest: nat)
    requires c.offset < code.size && 0 <= dest + Drift(c) < |code.words|
    ensures Next(code, Moved(c, dest)) == Ok((code.words[dest + Drift(c)], Cursor(dest + Drift(c) + 1, c.offset + 1)))
  {
  }

  /** `Tape`: one buffer, a moving read pointer and its `offset`. */
  class Tape {
    const code: Code
    var pos: int
    var offset: nat

    /** `Tape::new(tape, size)`: pointer at the first word, offset 0. */
    constructor (words: seq<Word>, size: nat)
      ensures code == Code(words, size) && pos == 0 && offset == 0
    {
      code := Code(words, size);
      pos := 0;
      offset := 0;
    }

    function Here(): Cursor
      reads this
    {
      Cursor(pos, offset)
    }

    method GetNext() returns (r: Result<Word>)
      modifies this
      ensures Yields(r, Next(code, old(Here())), Here())
    {
      if offset >= code.size {
        return Err(OutOfRange);
      }
      offset := offset + 1;
      if !(0 <= pos < |code.words|) {
        return Err(WildRead);
      }
      r := Ok(code.words[pos]);
      pos := pos + 1;
    }

    method GetNextIndex() returns (r: Result<nat>)
      modifies this
      ensures Yields(r, NextIndex(code, old(Here())), Here())
    {
      var w := GetNext();
      if w.Err? {
        return Err(w.error);
      }
      match AsInt(w.value)
      case None => r := Err(IllTyped);
      case Some(n) => r := Ok(n);
    }

    method GetNextFloat() returns (r: Result<Num>)
      modifies this
      ensures Yields(r, NextNum(code, old(Here())), Here())
    {
      var w := GetNext();
      if w.Err? {
        return Err(w.error);
      }
      match AsNum(w.value)
      case None => r := Err(IllTyped);
      case Some(x) => r := Ok(x);
    }

    method GetNextFunc() returns (r: Result<Opcode>)
      modifies this
      ensures Yields(r, NextOp(code, old(Here())), Here())
    {
      var w := GetNext();
      if w.Err? {
        return Err(w.error);
      }
      match AsOpcode(w.value)
      case None => r := Err(IllTyped);
      case Some(op) => r := Ok(op);
    }

    method Peek() returns (r: Result<Word>)
      ensures r == PeekAt(code, Here())
    {
      r := At(code, pos + 1);
    }

    method Read() returns (r: Result<Word>)
      ensures r == ReadAt(code, Here())
    {
      r := At(code, pos);
    }

    method Save() returns (saved: Cursor)
      ensures saved == Here()
    {
      saved := Cursor(pos, offset);
    }

    method Restore(saved: Cursor)
      modifies this
      ensures Here() == saved
    {
      pos := saved.pos;
      offset := saved.offset;
    }

    method Skip(amount: nat)
      modifies this
      ensures Here() == Skipped(old(Here()), amount)
    {
      pos := pos + amount;
      offset := offset + amount;
    }

    method MoveTo(dest: nat)
      modifies this
      ensures Here() == Moved(old(Here()), dest)
    {
      var start := pos - offset;
      pos := start + dest;
    }
  }
}
