/** Contact preparation inside `bulk_send`: finding the phone column and
    turning a cell into the phone number and chat address used for it. */
module Contacts {
  import opened Wrappers
  import opened Text

  /** Header names (after `strip().lower()`) that mark the phone column. */
  const PhoneHeaders: set<string> := {"phone", "number", "mobile", "contact", "phno"}

  predicate IsPhoneHeader(name: string)
  {
    Lower(Strip(name)) in PhoneHeaders
  }

  /** The first column, in column order, whose name marks it as the phone
      column; `None` when no column does. */
  function PhoneColumn(columns: seq<string>): (k: Option<nat>)
    ensures k.Some? ==> k.value < |columns| && IsPhoneHeader(columns[k.value])
    ensures k.Some? ==> forall j :: 0 <= j < k.value ==> !IsPhoneHeader(columns[j])
    ensures k.None? <==> forall j :: 0 <= j < |columns| ==> !IsPhoneHeader(columns[j])
  {
    if columns == [] then None
    else if IsPhoneHeader(columns[0]) then Some(0)
    else match PhoneColumn(columns[1..])
      case None => None
      case Some(k) => Some(k + 1)
  }

  /** The column search loop of `bulk_send`, which stops at the first match. */
  method FindPhoneColumn(columns: seq<string>) returns (col: Option<nat>)
    ensures col == PhoneColumn(columns)
  {
    col := None;
    for i := 0 to |columns|
      invariant col == None
      invariant forall j :: 0 <= j < i ==> !IsPhoneHeader(columns[j])
    {
      if IsPhoneHeader(columns[i]) {
        col := Some(i);
        break;
      }
    }
  }

  /** The phone number for a cell: stripped, with `+` put in front unless it
      is already there. */
  function NormalisePhone(cell: string): (phone: string)
    ensures |phone| >= 1 && phone[0] == '+'
  {
    var raw := Strip(cell);
    if |raw| > 0 && raw[0] == '+' then raw else "+" + raw
  }

  /** A stripped cell that already starts with `+` is kept as it is;
      otherwise the number is the stripped cell behind a `+`. */
  lemma NormaliseKeepsOrPrefixes(cell: string)
    ensures NormalisePhone(cell) == Strip(cell) <==> (|Strip(cell)| > 0 && Strip(cell)[0] == '+')
    ensures NormalisePhone(cell) != Strip(cell) ==> NormalisePhone(cell) == "+" + Strip(cell)
  {
  }

  /** Normalising a normalised number changes nothing. */
  lemma NormaliseIdempotent(cell: string)
    ensures NormalisePhone(NormalisePhone(cell)) == NormalisePhone(cell)
  {
    var p := NormalisePhone(cell);
    StripKeepsTrimmed(p);
  }

  /** Python's `s[1:]`: everything but the first character (empty stays
      empty). */
  function DropFirst(s: string): string
  {
    if s == [] then [] else s[1..]
  }

  const ChatPrefix: string := "https://web.whatsapp.com/send?phone="

  /** The direct-chat address opened for a normalised phone number. */
  function ChatUrl(phone: string): string
  {
    ChatPrefix + DropFirst(phone)
  }

  /** The number in the chat address is `phone[1:]`: putting the `+` back
      gives the normalised number, and it is the stripped cell with at most
      one leading `+` removed. */
  lemma ChatNumber(cell: string)
    ensures "+" + DropFirst(NormalisePhone(cell)) == NormalisePhone(cell)
    ensures DropFirst(NormalisePhone(cell)) ==
      (var raw := Strip(cell); if |raw| > 0 && raw[0] == '+' then raw[1..] else raw)
  {
    var p := NormalisePhone(cell);
    assert p == [p[0]] + p[1..];
  }
}
