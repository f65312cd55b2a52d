/** Small value helpers shared by the notification-handler modules. */
module Common {

  /** A value that may be absent: a nullable column, an undefined property. */
  datatype Option<+T> = None | Some(value: T)

  /** Lower-cases one ASCII letter and leaves every other character alone. */
  function LowerChar(c: char): char
  {
    if 'A' <= c <= 'Z' then (c as int + 32) as char else c
  }

  /** String lower-casing as JavaScript's `toLowerCase` does it on ASCII text. */
  function ToLower(s: string): string
  {
    seq(|s|, i requires 0 <= i < |s| => LowerChar(s[i]))
  }
}
