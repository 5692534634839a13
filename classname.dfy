/**
 * How the Robot constructor reads the name of the user's Ruby class out of
 * the script text: the first line that is neither blank nor a comment,
 * between the "class" keyword and the '<' of "< SimRobot".
 */
module ClassNames {
  import opened Wrappers
  import opened Lists

  const NO_CLASS_DATA: string := "No class data found"
  const EXTEND_SIM_ROBOT: string := "Please extend the SimRobot class"

  /** The first index from i on that holds a character above ' ', or |s|. */
  function StartFrom(s: string, i: nat): (k: nat)
    requires i <= |s|
    ensures i <= k <= |s|
    ensures forall m :: i <= m < k ==> s[m] <= ' '
    ensures k < |s| ==> s[k] > ' '
    decreases |s| - i
  {
    if i == |s| || s[i] > ' ' then i else StartFrom(s, i + 1)
  }

  /** One past the last index below j, and at least lo, that holds a character above ' '. */
  function EndFrom(s: string, lo: nat, j: nat): (k: nat)
    requires lo <= j <= |s|
    ensures lo <= k <= j
    ensures forall m :: k <= m < j ==> s[m] <= ' '
    ensures k > lo ==> s[k - 1] > ' '
    decreases j - lo
  {
    if j == lo || s[j - 1] > ' ' then j else EndFrom(s, lo, j - 1)
  }

  /**
   * String.trim: the longest slice of s that neither starts nor ends with a
   * character at or below ' '; everything cut off is at or below ' '.
   */
  function Trim(s: string): (r: string)
    ensures |r| > 0 ==> r[0] > ' ' && r[|r| - 1] > ' '
    ensures r == [] <==> forall m :: 0 <= m < |s| ==> s[m] <= ' '
  {
    var a := StartFrom(s, 0);
    var b := EndFrom(s, a, |s|);
    assert b > a ==> s[a..b][0] == s[a];
    s[a..b]
  }

  /** What trim cuts off on either side is at or below ' '. */
  lemma TrimIsSlice(s: string)
    ensures exists a, b :: 0 <= a <= b <= |s| && Trim(s) == s[a..b]
                           && (forall m :: 0 <= m < a ==> s[m] <= ' ')
                           && (forall m :: b <= m < |s| ==> s[m] <= ' ')
  {
    var a := StartFrom(s, 0);
    var b := EndFrom(s, a, |s|);
    assert Trim(s) == s[a..b];
  }

  /** StartFrom finds the first character above ' ' from i on. */
  lemma {:induction false} StartFromIs(s: string, i: nat, a: nat)
    requires i <= a < |s| && s[a] > ' ' && forall m :: i <= m < a ==> s[m] <= ' '
    ensures StartFrom(s, i) == a
    decreases a - i
  {
    if i < a {
      StartFromIs(s, i + 1, a);
    }
  }

  /** EndFrom finds one past the last character above ' ' below j. */
  lemma {:induction false} EndFromIs(s: string, lo: nat, j: nat, b: nat)
    requires lo < b <= j <= |s| && s[b - 1] > ' ' && forall m :: b <= m < j ==> s[m] <= ' '
    ensures EndFrom(s, lo, j) == b
    decreases j - b
  {
    if b < j {
      EndFromIs(s, lo, j - 1, b);
    }
  }

  /** The trimmed string of s is s[a..b] when exactly the characters outside it are blank at the ends. */
  lemma TrimSpan(s: string, a: nat, b: nat)
    requires a < b <= |s| && s[a] > ' ' && s[b - 1] > ' '
    requires forall m :: 0 <= m < a ==> s[m] <= ' '
    requires forall m :: b <= m < |s| ==> s[m] <= ' '
    ensures Trim(s) == s[a..b]
  {
    StartFromIs(s, 0, a);
    EndFromIs(s, a, |s|, b);
  }

  /** Trimming a trimmed string changes nothing. */
  lemma TrimIdempotent(s: string)
    ensures Trim(Trim(s)) == Trim(s)
  {
    var t := Trim(s);
    if |t| > 0 {
      assert StartFrom(t, 0) == 0;
      assert EndFrom(t, 0, |t|) == |t|;
    }
  }

  /** A line the class-name loop skips: blank after trimming, or a comment. */
  predicate Skipped(line: string)
  {
    var t := Trim(line);
    t == [] || t[0] == '#'
  }

  /** The index of the first line from i on that the loop does not skip. */
  function FirstCodeLine(lines: seq<string>, i: nat): (r: Option<nat>)
    requires i <= |lines|
    ensures r.None? <==> forall k :: i <= k < |lines| ==> Skipped(lines[k])
    ensures r.Some? ==> i <= r.value < |lines| && !Skipped(lines[r.value])
                        && forall k :: i <= k < r.value ==> Skipped(lines[k])
    decreases |lines| - i
  {
    if i == |lines| then None
    else if !Skipped(lines[i]) then Some(i)
    else FirstCodeLine(lines, i + 1)
  }

  /**
   * substring("class".length(), indexOf('<')).trim() on the line as read,
   * untrimmed: no '<', or one before index 5, raises the exception that
   * becomes "Please extend the SimRobot class".
   */
  function ClassName(line: string): (r: Result<string>)
    ensures r.Err? <==> IndexOf(line, '<') == |line| || IndexOf(line, '<') < 5
    ensures r.Err? ==> r.error == EXTEND_SIM_ROBOT
  {
    var idx := IndexOf(line, '<');
    if idx == |line| || idx < 5 then Err(EXTEND_SIM_ROBOT) else Ok(Trim(line[5..idx]))
  }

  /**
   * The skipping test trims the line but the extraction does not: an
   * indented class line " class A<S" is accepted and reads as "s A".
   */
  lemma IndentedClassLine()
    ensures !Skipped(" class A<S")
    ensures ClassName(" class A<S") == Ok("s A")
  {
    IndentedLine(" class A<S");
  }

  /** " class A<S", read character by character. */
  lemma IndentedLine(line: string)
    requires line == " class A<S"
    ensures !Skipped(line) && ClassName(line) == Ok("s A")
  {
    var inner := line[5..8];
    assert inner == "s A";
    assert Trim(line) == line[1..] by { TrimSpan(line, 1, |line|); }
    assert line[..8] == " class A";
    assert IndexOf(line, '<') == 8 by { IndexOfIs(line, '<', 8); }
    assert Trim(inner) == "s A" by { TrimSpan(inner, 0, 3); }
  }

  /**
   * The class name of a script: "No class data found" when every line is
   * skipped, otherwise the name on the first line that is not.
   */
  function ScriptClassName(lines: seq<string>): (r: Result<string>)
    ensures (forall k :: 0 <= k < |lines| ==> Skipped(lines[k])) ==> r == Err(NO_CLASS_DATA)
    ensures forall i :: 0 <= i < |lines| && !Skipped(lines[i]) && (forall k :: 0 <= k < i ==> Skipped(lines[k]))
                        ==> r == ClassName(lines[i])
  {
    var first := FirstCodeLine(lines, 0);
    assert forall i :: 0 <= i < |lines| && !Skipped(lines[i]) && (forall k :: 0 <= k < i ==> Skipped(lines[k]))
                       ==> first == Some(i);
    if first.None? then Err(NO_CLASS_DATA) else ClassName(lines[first.value])
  }

  /** The do-while loop of the constructor that reads lines until one is neither blank nor a comment. */
  method ReadClassName(lines: seq<string>) returns (r: Result<string>)
    ensures r == ScriptClassName(lines)
  {
    var i := 0;
    while i < |lines| && Skipped(lines[i])
      invariant 0 <= i <= |lines|
      invariant forall k :: 0 <= k < i ==> Skipped(lines[k])
    {
      i := i + 1;
    }
    if i == |lines| {
      return Err(NO_CLASS_DATA);
    }
    return ClassName(lines[i]);
  }

  /** A script whose first lines are a comment and a blank line is read from its class line. */
  lemma CommentedScript()
    ensures ScriptClassName(["# S", "", "class B<S"]) == Ok("B")
  {
    var lines := ["# S", "", "class B<S"];
    PlainClassLine(lines[2]);
    assert Skipped(lines[0]) by { TrimSpan(lines[0], 0, |lines[0]|); }
    assert Skipped(lines[1]);
  }

  /** "class B<S" is a class line naming B. */
  lemma PlainClassLine(line: string)
    requires line == "class B<S"
    ensures !Skipped(line) && ClassName(line) == Ok("B")
  {
    var inner := line[5..7];
    assert inner == " B";
    assert Trim(line) == line by { TrimSpan(line, 0, |line|); }
    assert IndexOf(line, '<') == 7 by { IndexOfIs(line, '<', 7); }
    assert Trim(inner) == "B" by { TrimSpan(inner, 1, 2); }
  }
}
