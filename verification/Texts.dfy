/** What the small functions on texts mean. */
module Texts {
  import opened Model

  lemma StartsExactly(text: string, prefix: string)
    ensures StartsWith(text, prefix) <==> exists rest :: text == prefix + rest
  {
    if StartsWith(text, prefix) {
      assert text == prefix + text[|prefix|..];
    }
    if rest :| text == prefix + rest {
      assert text[..|prefix|] == prefix;
    }
  }

  /** A text contains a pattern exactly when it can be cut into something, the pattern, and something. */
  lemma ContainsExactly(text: string, pattern: string)
    ensures Contains(text, pattern) <==> exists before, after :: text == (before + pattern) + after
  {
    if i :| 0 <= i <= |text| && StartsWith(text[i..], pattern) {
      assert text == (text[..i] + pattern) + text[i + |pattern|..];
    }
    if before, after :| text == (before + pattern) + after {
      assert text[|before|..] == pattern + after;
      assert StartsWith(text[|before|..], pattern);
    }
  }

  lemma {:induction false} CountsOccurrences(text: string, c: char)
    ensures CountChar(text, c) == multiset(text)[c]
  {
    if text != "" {
      CountsOccurrences(text[1..], c);
      assert text == [text[0]] + text[1..];
    }
  }

  predicate IsDigit(c: char) {
    '0' <= c <= '9'
  }

  /** The number that a text of digits denotes. */
  function Denoted(text: string): nat
    requires forall i :: 0 <= i < |text| ==> IsDigit(text[i])
  {
    if text == "" then 0
    else
      assert IsDigit(text[|text| - 1]);
      Denoted(text[..|text| - 1]) * 10 + (text[|text| - 1] as int - '0' as int)
  }

  /** The text of a number is its decimal form: it denotes the number and has no leading zero. */
  lemma {:induction false} NumberRoundTrip(n: nat)
    ensures var text := NatText(n);
            && text != "" && (forall i :: 0 <= i < |text| ==> IsDigit(text[i]))
            && Denoted(text) == n && (text[0] == '0' ==> n == 0 && text == "0")
    decreases n
  {
    DigitDenotes(n % 10);
    if n < 10 {
      assert NatText(n)[..0] == "";
    } else {
      NumberRoundTrip(n / 10);
      var front := NatText(n / 10);
      assert NatText(n) == front + [Digit(n % 10)];
      assert NatText(n)[..|front|] == front;
    }
  }

  lemma DigitDenotes(n: nat)
    requires n < 10
    ensures IsDigit(Digit(n)) && Digit(n) as int - '0' as int == n
  {
  }

  /** Different numbers have different texts. */
  lemma NumbersDiffer(a: nat, b: nat)
    ensures NatText(a) == NatText(b) <==> a == b
  {
    NumberRoundTrip(a);
    NumberRoundTrip(b);
  }
}
