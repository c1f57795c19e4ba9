/** How ids are written: decimal numbers, item ids and turn ids. */
module Spellings {
  import opened Ids
  import opened Replay

  function DigitOf(c: char): int {
    c as int - '0' as int
  }

  /** The number that some digits stand for, the first digit counting most. */
  function ValueOf(digits: string): int {
    if digits == "" then 0 else 10 * ValueOf(digits[..|digits| - 1]) + DigitOf(digits[|digits| - 1])
  }

  /** A number is written in decimal digits, without a zero in front. */
  lemma {:induction false} DecimalReads(n: nat)
    ensures ValueOf(Decimal(n)) == n
    ensures forall c :: c in Decimal(n) ==> '0' <= c <= '9'
    ensures n > 0 ==> Decimal(n)[0] != '0'
    ensures n == 0 ==> Decimal(n) == "0"
  {
    var digit := ['0' + (n % 10) as char];
    if n < 10 {
      assert digit[..0] == "";
    } else {
      DecimalReads(n / 10);
      var front := Decimal(n / 10);
      assert (front + digit)[..|front|] == front && Decimal(n)[0] == front[0];
      assert n == 10 * (n / 10) + n % 10;
    }
  }

  /** Item ids as clients see them. */
  lemma ItemIdTexts(n: nat, text: string)
    ensures Text(AgentId(n)) == "acp-agent-" + Decimal(n)
    ensures Text(ReasoningId(n)) == "acp-reasoning-" + Decimal(n)
    ensures Text(UserId(n)) == "acp-user-" + Decimal(n)
    ensures Text(ToolId(text)) == "acp-tool-" + text
    ensures Text(ImageId(text)) == "acp-image-" + text
  {
  }

  lemma TurnIdTexts(n: nat)
    ensures TurnIdText(NumberedId(n)) == "turn-acp-" + Decimal(n)
    ensures TurnIdText(PrefaceId(n)) == "turn-acp-pre-" + Decimal(n)
  {
  }
}
