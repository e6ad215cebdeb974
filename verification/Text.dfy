/** The string operations the gateway applies to report fields, over ASCII. */
module Text {
  import opened Prelude

  predicate IsSpace(c: char) {
    c == ' ' || '\t' <= c <= '\r' || '\U{1c}' <= c <= '\U{1f}'
  }

  function StripLeft(s: string): (r: string)
    ensures |r| <= |s|
  {
    if s != "" && IsSpace(s[0]) then StripLeft(s[1..]) else s
  }

  function StripRight(s: string): (r: string)
    ensures |r| <= |s|
  {
    if s != "" && IsSpace(s[|s| - 1]) then StripRight(s[..|s| - 1]) else s
  }

  function Strip(s: string): string {
    StripRight(StripLeft(s))
  }

  // No white space at either end: what Strip returns, and what it leaves alone.
  predicate Stripped(s: string) {
    s != "" ==> !IsSpace(s[0]) && !IsSpace(s[|s| - 1])
  }

  function LowerChar(c: char): char {
    if 'A' <= c <= 'Z' then (c as int + 32) as char else c
  }

  function UpperChar(c: char): char {
    if 'a' <= c <= 'z' then (c as int - 32) as char else c
  }

  function Lower(s: string): (r: string)
    ensures |r| == |s|
  {
    seq(|s|, i requires 0 <= i < |s| => LowerChar(s[i]))
  }

  function Upper(s: string): (r: string)
    ensures |r| == |s|
  {
    seq(|s|, i requires 0 <= i < |s| => UpperChar(s[i]))
  }

  predicate EndsWith(s: string, suffix: string) {
    |suffix| <= |s| && s[|s| - |suffix|..] == suffix
  }

  predicate StartsWith(s: string, prefix: string) {
    prefix <= s
  }

  predicate Contains(s: string, part: string) {
    exists i {:trigger s[i..]} :: 0 <= i <= |s| && part <= s[i..]
  }

  function Digits(n: nat): string {
    if n < 10 then [DigitChar(n)] else Digits(n / 10) + [DigitChar(n % 10)]
  }

  function DigitChar(d: nat): char
    requires d < 10
  {
    ('0' as int + d) as char
  }

  function Decimal(n: int): string {
    if n < 0 then "-" + Digits(-n) else Digits(n)
  }

  // Digits only, most significant first.
  function ParseDigits(s: string, acc: nat): Option<int> {
    if s == "" then Some(acc)
    else if '0' <= s[0] <= '9' then ParseDigits(s[1..], acc * 10 + (s[0] as int - '0' as int))
    else None
  }

  function ParseInt(s: string): Option<int> {
    var t := Strip(s);
    if t == "" then None
    else if t[0] in "+-" then
      if |t| == 1 then None
      else match ParseDigits(t[1..], 0)
           case None => None
           case Some(n) => Some(if t[0] == '-' then -n else n)
    else ParseDigits(t, 0)
  }

  // The text up to the first occurrence of c, or all of it.
  function Before(s: string, c: char): string {
    if s == "" || s[0] == c then "" else [s[0]] + Before(s[1..], c)
  }

  // Last component of a POSIX path, skipping empty and "." components.
  function PathName(s: string): string {
    PathNameFrom(s, "", "")
  }

  function PathNameFrom(s: string, current: string, last: string): string {
    var closed := if current == "" || current == "." then last else current;
    if s == "" then closed
    else if s[0] == '/' then PathNameFrom(s[1..], "", closed)
    else PathNameFrom(s[1..], current + [s[0]], last)
  }
}
