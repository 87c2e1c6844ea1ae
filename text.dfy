/** The two string operations the interactive prompt applies to a line:
    Python's `str.strip()` with no argument and the `lower()` comparison
    against the exit tokens. */
module Text {

  /** Python's `str.isspace` for one character. */
  predicate IsSpace(c: char)
  {
    var n := c as int;
    || 0x09 <= n <= 0x0D || 0x1C <= n <= 0x20
    || n == 0x85 || n == 0xA0 || n == 0x1680
    || 0x2000 <= n <= 0x200A
    || n == 0x2028 || n == 0x2029 || n == 0x202F || n == 0x205F || n == 0x3000
  }

  /** The length of the run of whitespace that starts the string. */
  function LeadingSpaces(s: string): (n: nat)
    ensures n <= |s|
    ensures forall k :: 0 <= k < n ==> IsSpace(s[k])
    ensures n < |s| ==> !IsSpace(s[n])
  {
    if s == [] || !IsSpace(s[0]) then 0 else 1 + LeadingSpaces(s[1..])
  }

  /** The length of the run of whitespace that ends the string. */
  function TrailingSpaces(s: string): (n: nat)
    ensures n <= |s|
    ensures forall k :: |s| - n <= k < |s| ==> IsSpace(s[k])
    ensures n < |s| ==> !IsSpace(s[|s| - 1 - n])
  {
    if s == [] || !IsSpace(s[|s| - 1]) then 0 else 1 + TrailingSpaces(s[..|s| - 1])
  }

  /** `s.strip()`: the string without its leading and trailing whitespace.
      What is kept is one contiguous piece of `s`, everything removed is
      whitespace, and the result neither starts nor ends with whitespace. */
  function Strip(s: string): (r: string)
    ensures LeadingSpaces(s) + |r| <= |s|
    ensures r == s[LeadingSpaces(s)..LeadingSpaces(s) + |r|]
    ensures forall k :: LeadingSpaces(s) + |r| <= k < |s| ==> IsSpace(s[k])
    ensures r != [] ==> !IsSpace(r[0]) && !IsSpace(r[|r| - 1])
    ensures r == [] <==> forall k :: 0 <= k < |s| ==> IsSpace(s[k])
    ensures s == [] || (!IsSpace(s[0]) && !IsSpace(s[|s| - 1])) ==> r == s
  {
    var t := s[LeadingSpaces(s)..];
    t[..|t| - TrailingSpaces(t)]
  }

  /** Stripping twice strips nothing more. */
  lemma StripIdempotent(s: string)
    ensures Strip(Strip(s)) == Strip(s)
  {
  }

  /** ASCII lower-casing of one character. */
  function LowerChar(c: char): char
  {
    if 'A' <= c <= 'Z' then (c as int + 32) as char else c
  }

  /** `s.lower()` restricted to ASCII letters. No other character lowers to
      a single letter of "exit" or "quit", so the exit test below agrees
      with Python's. */
  function Lower(s: string): string
  {
    seq(|s|, i requires 0 <= i < |s| => LowerChar(s[i]))
  }

  /** `cmd.lower() in ['exit', 'quit']`. */
  predicate IsExitToken(cmd: string)
  {
    Lower(cmd) == "exit" || Lower(cmd) == "quit"
  }

  /** Each character of `s` is the character of `lower` or of `upper` at the
      same position. */
  predicate Cased(s: string, lower: string, upper: string)
  {
    |s| == |lower| == |upper| && forall i :: 0 <= i < |s| ==> s[i] == lower[i] || s[i] == upper[i]
  }

  /** The exit words are accepted in every mix of upper and lower case, and
      nothing else is: a line is an exit token iff each of its four
      characters is the lower- or the upper-case letter of "exit", or each
      is that of "quit". */
  lemma ExitTokenSpelling(cmd: string)
    ensures IsExitToken(cmd) <==> Cased(cmd, "exit", "EXIT") || Cased(cmd, "quit", "QUIT")
  {
    if |cmd| == 4 {
      if Cased(cmd, "exit", "EXIT") {
        forall i | 0 <= i < 4 ensures Lower(cmd)[i] == "exit"[i] {
        }
        assert Lower(cmd) == "exit";
      }
      if Cased(cmd, "quit", "QUIT") {
        forall i | 0 <= i < 4 ensures Lower(cmd)[i] == "quit"[i] {
        }
        assert Lower(cmd) == "quit";
      }
      if Lower(cmd) == "exit" {
        forall i | 0 <= i < 4 ensures cmd[i] == "exit"[i] || cmd[i] == "EXIT"[i] {
          assert LowerChar(cmd[i]) == "exit"[i];
        }
      }
      if Lower(cmd) == "quit" {
        forall i | 0 <= i < 4 ensures cmd[i] == "quit"[i] || cmd[i] == "QUIT"[i] {
          assert LowerChar(cmd[i]) == "quit"[i];
        }
      }
    }
  }

  /** Some lines the test accepts and some it refuses. */
  lemma ExitTokenExamples()
    ensures IsExitToken("exit") && IsExitToken("QUIT") && IsExitToken("eXiT")
    ensures !IsExitToken("") && !IsExitToken("exit now") && !IsExitToken("quit!")
  {
    assert Lower("exit") == "exit" && Lower("QUIT") == "quit" && Lower("eXiT") == "exit";
  }

  /** The exit test ignores case: two strings that agree letter by letter up
      to case are both exit tokens or neither is. An exit token has four
      characters, so a line with anything more is a command. */
  lemma ExitTokenIgnoresCase(s: string, t: string)
    requires |s| == |t| && forall i :: 0 <= i < |s| ==> LowerChar(s[i]) == LowerChar(t[i])
    ensures IsExitToken(s) <==> IsExitToken(t)
    ensures IsExitToken(s) ==> |s| == 4
  {
    assert Lower(s) == Lower(t);
  }
}
