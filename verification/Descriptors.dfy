// The pipe descriptors the shell itself holds: mkpipe, Close and MaybeClose of
// shell.c.
module Descriptors {
  // A pipe: where it is read and where it is written.
  datatype Ends = Ends(r: int, w: int)

  // What a descriptor leads to: an end of one of the pipes made, which are numbered,
  // or something that is not do_pipeline's.
  datatype Plug = Own | ReadEnd(pipe: int) | WriteEnd(pipe: int)

  class PipeTable {
    var open: set<int>
    // the descriptors that are not do_pipeline's to close
    ghost const own: set<int>
    ghost var made: seq<Ends>        // every pipe made
    ghost var holds: map<int, Plug>  // the pipe ends that are open
    ghost var most: nat              // the most pipe descriptors open at once

    ghost predicate Valid()
      reads this
    {
      0 in own && own <= open && holds.Keys == open - own && -1 !in open && |open - own| <= most
    }

    ghost function PlugOf(fd: int): Plug
      reads this
    {
      if fd in holds then holds[fd] else Own
    }

    lemma NoPlug()
      requires Valid()
      ensures PlugOf(-1) == Own
    {
    }

    // Standard input is open, so no pipe gets descriptor 0.
    constructor (open: set<int>)
      requires 0 in open && -1 !in open
      ensures Valid() && this.open == own == open && made == [] && most == 0
    {
      this.open, own := open, open;
      made, holds, most := [], map[], 0;
      new;
      assert open - own == {};
    }

    // The lowest descriptor not open.
    method Lowest() returns (fd: int)
      ensures fd >= 0 && fd !in open && forall x :: 0 <= x < fd ==> x in open
    {
      fd := 0;
      ghost var rest := open;
      while fd in open
        invariant fd >= 0 && (forall x :: 0 <= x < fd ==> x in open)
        invariant forall x :: x in open && x >= fd ==> x in rest
        decreases rest
      {
        rest := rest - {fd};
        fd := fd + 1;
      }
    }

    method Pipe() returns (r: int, w: int)
      requires 0 in open
      modifies this`open
      ensures r > 0 && w > 0 && r != w && r !in old(open) && w !in old(open) && open == old(open) + {r, w}
    {
      r := Lowest();
      open := open + {r};
      w := Lowest();
      open := open + {w};
    }

    // The two descriptors are the ends of one new pipe.
    method MkPipe() returns (r: int, w: int)
      requires Valid()
      modifies this
      ensures Valid() && r > 0 && w > 0 && r != w && r !in old(open) && w !in old(open)
      ensures open == old(open) + {r, w} && made == old(made) + [Ends(r, w)]
      ensures holds == old(holds)[r := ReadEnd(|old(made)|)][w := WriteEnd(|old(made)|)]
      ensures most == if old(most) < |open - own| then |open - own| else old(most)
    {
      r, w := Pipe();
      Plugged(old(open), own, holds, r, w, |made|);
      holds := holds[r := ReadEnd(|made|)][w := WriteEnd(|made|)];
      made := made + [Ends(r, w)];
      most := if most < |open - own| then |open - own| else most;
    }

    // Only what is open, and do_pipeline's own, is ever closed.
    method Close(fd: int)
      requires Valid() && fd in open && fd !in own
      modifies this
      ensures Valid() && open == old(open) - {fd} && holds == old(holds) - {fd}
      ensures made == old(made) && most == old(most)
    {
      Fewer(open - own, fd);
      open, holds := open - {fd}, holds - {fd};
      assert open - own == old(open) - own - {fd};
    }

    method MaybeClose(fd: int) returns (r: int)
      requires Valid() && (fd >= 0 ==> fd in open && fd !in own)
      modifies this
      ensures Valid() && r == (if fd < 0 then fd else -1)
      ensures open == (if fd < 0 then old(open) else old(open) - {fd})
      ensures holds == (if fd < 0 then old(holds) else old(holds) - {fd})
      ensures made == old(made) && most == old(most)
    {
      if fd < 0 {
        return fd;
      }
      Close(fd);
      return -1;
    }
  }

  lemma {:induction false} Plugged(open: set<int>, own: set<int>, holds: map<int, Plug>, r: int, w: int, k: int)
    requires own <= open && holds.Keys == open - own && r !in open && w !in open
    ensures own <= open + {r, w}
    ensures holds[r := ReadEnd(k)][w := WriteEnd(k)].Keys == (open + {r, w}) - own
  {
  }

  lemma {:induction false} Fewer(s: set<int>, x: int)
    ensures |s - {x}| <= |s|
  {
    if x in s { assert s == (s - {x}) + {x}; } else { assert s - {x} == s; }
  }
}
