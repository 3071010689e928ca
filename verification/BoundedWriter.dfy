/** The writer that keeps at most maxSize bytes of a process's output and cancels the process beyond that. */
module BoundedOutput {

  /** What a writer holds; cancels counts the calls of its cancel function. */
  datatype Buffer = Buffer(maxSize: int, buf: string, current: int, exceeded: bool, cancels: nat)

  function Empty(maxSize: int): Buffer {
    Buffer(maxSize, "", 0, false, 0)
  }

  function Append(w: Buffer, p: string): Buffer {
    if w.exceeded then w
    else if w.current + |p| > w.maxSize then
      var allowed := w.maxSize - w.current;
      var kept := if allowed > 0 then p[..allowed] else "";
      w.(buf := w.buf + kept, current := w.current + |kept|, exceeded := true, cancels := w.cancels + 1)
    else w.(buf := w.buf + p, current := w.current + |p|)
  }

  function AppendAll(w: Buffer, ps: seq<string>): Buffer {
    if ps == [] then w else Append(AppendAll(w, ps[..|ps| - 1]), ps[|ps| - 1])
  }

  function Concat(ps: seq<string>): string {
    if ps == [] then "" else Concat(ps[..|ps| - 1]) + ps[|ps| - 1]
  }

  /** The longest prefix of the text that fits; a negative limit keeps nothing. */
  function Clip(text: string, maxSize: int): string {
    if maxSize <= 0 then "" else if |text| <= maxSize then text else text[..maxSize]
  }

  /** The writer's state depends only on the concatenation of what was written, not on how it was cut into writes. */
  ghost predicate Holds(w: Buffer, maxSize: int, text: string, written: bool) {
    && w.maxSize == maxSize
    && w.buf == Clip(text, maxSize)
    && w.current == |w.buf|
    && (w.exceeded <==> written && |text| > maxSize)
    && w.cancels == (if w.exceeded then 1 else 0)
  }

  lemma AppendHolds(w: Buffer, maxSize: int, text: string, written: bool, p: string)
    requires Holds(w, maxSize, text, written) && (!written ==> text == "")
    ensures Holds(Append(w, p), maxSize, text + p, true)
  {
    if !w.exceeded && w.current + |p| > maxSize && maxSize > 0 {
      assert (text + p)[..maxSize] == text + p[..maxSize - |text|];
    } else if w.exceeded && maxSize > 0 {
      assert (text + p)[..maxSize] == text[..maxSize];
    }
  }

  /** The cancel function is called by the write that passes the limit, and by no other. */
  lemma AppendCancels(w: Buffer, p: string)
    ensures Append(w, p).cancels == w.cancels + if Append(w, p).exceeded && !w.exceeded then 1 else 0
    ensures w.exceeded ==> Append(w, p) == w
  {
  }

  /**
   After any writes the buffer is the first maxSize bytes of their concatenation, and
   the limit was reported once iff it was passed.
   */
  lemma {:induction false} ChunkingIsInvisible(maxSize: int, ps: seq<string>)
    ensures Holds(AppendAll(Empty(maxSize), ps), maxSize, Concat(ps), ps != [])
    ensures maxSize >= 0 ==> (AppendAll(Empty(maxSize), ps).exceeded <==> |Concat(ps)| > maxSize)
  {
    if ps != [] {
      var n := |ps| - 1;
      ChunkingIsInvisible(maxSize, ps[..n]);
      AppendHolds(AppendAll(Empty(maxSize), ps[..n]), maxSize, Concat(ps[..n]), ps[..n] != [], ps[n]);
    }
  }

  class BoundedWriter {
    var buf: string
    const maxSize: int
    var current: int
    var exceeded: bool
    var cancels: nat

    function State(): Buffer
      reads this
    {
      Buffer(maxSize, buf, current, exceeded, cancels)
    }

    constructor (maxSize: int)
      ensures State() == Empty(maxSize)
    {
      this.maxSize := maxSize;
      buf, current, exceeded, cancels := "", 0, false, 0;
    }

    /** Every write reports that all of its bytes were taken. */
    method Write(p: string) returns (n: nat)
      modifies this
      ensures n == |p|
      ensures State() == Append(old(State()), p)
    {
      if exceeded {
        return |p|;
      }
      if current + |p| > maxSize {
        var allowed := maxSize - current;
        if allowed > 0 {
          buf := buf + p[..allowed];
          current := current + allowed;
        }
        exceeded := true;
        cancels := cancels + 1;
        return |p|;
      }
      buf := buf + p;
      current := current + |p|;
      n := |p|;
    }
  }
}
