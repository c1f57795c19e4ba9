/**
 Item ids of the ACP bridge. The bridge formats ids as text (a fixed prefix and a
 counter, or a prefix and a call id). The model keeps the structure of an id; `Text`
 gives the wire text, and `TextInjective` shows that no two different ids share one,
 so comparing structures is comparing the strings the bridge compares.
 */
module Ids {

  function Decimal(n: nat): (s: string)
    ensures |s| > 0
  {
    var digit := ['0' + (n % 10) as char];
    if n < 10 then digit else Decimal(n / 10) + digit
  }

  /** Decimal texts determine the number. */
  lemma {:induction false} DecimalInjective(m: nat, n: nat)
    requires Decimal(m) == Decimal(n)
    ensures m == n
    decreases m
  {
    assert Last(Decimal(m)) == '0' + (m % 10) as char;
    assert Last(Decimal(n)) == '0' + (n % 10) as char;
    assert m % 10 == n % 10;
    if m < 10 || n < 10 {
      assert |Decimal(m)| == 1 <==> m < 10;
      assert |Decimal(n)| == 1 <==> n < 10;
    } else {
      assert Decimal(m / 10) == Decimal(m)[..|Decimal(m)| - 1];
      assert Decimal(n / 10) == Decimal(n)[..|Decimal(n)| - 1];
      DecimalInjective(m / 10, n / 10);
    }
  }

  function Last(s: string): char
    requires |s| > 0
  {
    s[|s| - 1]
  }

  datatype ItemId =
    | AgentId(n: nat)
    | ReasoningId(n: nat)
    | UserId(n: nat)
    | ToolId(call: string)
    | ImageId(uuid: string)

  function Prefix(id: ItemId): string {
    match id
    case AgentId(_) => "acp-agent-"
    case ReasoningId(_) => "acp-reasoning-"
    case UserId(_) => "acp-user-"
    case ToolId(_) => "acp-tool-"
    case ImageId(_) => "acp-image-"
  }

  function Suffix(id: ItemId): string {
    match id
    case AgentId(n) => Decimal(n)
    case ReasoningId(n) => Decimal(n)
    case UserId(n) => Decimal(n)
    case ToolId(call) => call
    case ImageId(uuid) => uuid
  }

  function Text(id: ItemId): string {
    Prefix(id) + Suffix(id)
  }

  /** Different ids have different wire texts, and no wire text is empty. */
  lemma TextInjective(a: ItemId, b: ItemId)
    requires Text(a) == Text(b)
    ensures a == b && Text(a) != ""
  {
    assert Text(a)[4] == Prefix(a)[4] && Text(b)[4] == Prefix(b)[4];
    assert Prefix(a) == Prefix(b);
    assert Text(a)[|Prefix(a)|..] == Suffix(a) && Text(b)[|Prefix(b)|..] == Suffix(b);
    match a
    case AgentId(m) => DecimalInjective(m, b.n);
    case ReasoningId(m) => DecimalInjective(m, b.n);
    case UserId(m) => DecimalInjective(m, b.n);
    case ToolId(_) =>
    case ImageId(_) =>
  }
}
