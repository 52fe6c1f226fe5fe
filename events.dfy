/** The part of a Blender event that the two modal operators look at: its
    `type` name, such as "R", "T", "MOUSEMOVE" or "ESC". */
module Events {

  /** What a modal handler returns to Blender. */
  datatype Status = RunningModal | Finished

  /** Python's `sub in s` on strings: `sub` occurs somewhere in `s`. */
  predicate Contains(s: string, sub: string): (r: bool)
    ensures r ==> |sub| <= |s|
    decreases |s|
  {
    (|sub| <= |s| && s[..|sub|] == sub) || (|s| > 0 && Contains(s[1..], sub))
  }

  /** `sub` occurs in `s` starting at index `i`. */
  predicate OccursAt(s: string, sub: string, i: int) {
    0 <= i && i + |sub| <= |s| && s[i..i + |sub|] == sub
  }

  /** `Contains` finds an occurrence exactly when there is one at some index. */
  lemma {:induction false} ContainsSpec(s: string, sub: string)
    ensures Contains(s, sub) <==> exists i :: OccursAt(s, sub, i)
    decreases |s|
  {
    if |sub| <= |s| && s[..|sub|] == sub {
      assert OccursAt(s, sub, 0);
    } else if |s| > 0 {
      ContainsSpec(s[1..], sub);
      if Contains(s[1..], sub) {
        var i :| OccursAt(s[1..], sub, i);
        assert s[1..][i..i + |sub|] == s[i + 1..i + 1 + |sub|];
        assert OccursAt(s, sub, i + 1);
      }
      if exists i :: OccursAt(s, sub, i) {
        var i :| OccursAt(s, sub, i);
        assert i != 0;
        assert s[1..][i - 1..i - 1 + |sub|] == s[i..i + |sub|];
        assert OccursAt(s[1..], sub, i - 1);
      }
    }
  }

  /** A modal operator bound to `key` stops on any event that is neither
      that key nor a mouse event: one whose type has no `MOUSE` anywhere. */
  predicate EndsModal(eventType: string, key: string): (ends: bool)
    ensures !ends <==> eventType == key || exists i :: OccursAt(eventType, "MOUSE", i)
  {
    ContainsSpec(eventType, "MOUSE");
    eventType != key && !Contains(eventType, "MOUSE")
  }

  /** The key itself and the usual mouse events keep a session alive;
      other keys and timers end it. */
  lemma EndsModalExamples()
    ensures !EndsModal("R", "R") && !EndsModal("T", "T")
    ensures !EndsModal("MOUSEMOVE", "R") && !EndsModal("LEFTMOUSE", "T")
    ensures EndsModal("ESC", "R") && EndsModal("T", "R") && EndsModal("R", "T")
  {
  }
}
