/**
 * The checks the setters of the client apply to their arguments before they store
 * anything: the two regular expressions, the message and channel rules, and how far a
 * list of recipients gets before its first rejected entry.
 */
module Validation {
  import opened Php

  // The two patterns the client matches, one character class per position:
  // 'D' stands for [0-9], every other character for itself.
  const RecipientShape := "+DDDDDDDDDDDD"
  const SendTimeShape := "DDDD-DD-DDTDD:DD:DD"

  predicate Fits(c: char, cls: char)
  {
    if cls == 'D' then IsDigit(c) else c == cls
  }

  /** preg_match of `^shape$` without the D modifier: one trailing newline is let through. */
  predicate MatchesShape(s: string, shape: string)
  {
    EndsAt(s, |shape|) && forall i :: 0 <= i < |shape| ==> Fits(s[i], shape[i])
  }

  /** `~^\+[0-9]{12}$~` */
  predicate IsRecipientNumber(s: string)
  {
    MatchesShape(s, RecipientShape)
  }

  /** `~^[0-9]{4}\-[0-9]{2}\-[0-9]{2}T[0-9]{2}\:[0-9]{2}\:[0-9]{2}$~` */
  predicate IsSendTime(s: string)
  {
    MatchesShape(s, SendTimeShape)
  }

  /** What setRecipient accepts; a value that is not a string never matches. */
  predicate IsRecipient(v: Value)
  {
    v.Str? && IsRecipientNumber(v.text)
  }

  /** What setMessage accepts: `is_string` and not `empty`. */
  predicate IsMessage(v: Value)
  {
    v.Str? && !Empty(v)
  }

  /** What setChannel accepts: `is_int` and not negative. */
  predicate IsChannel(v: Value)
  {
    v.Int? && v.number >= 0
  }

  /** What setExpectedSendTime accepts: a \DateTime, or a string of the time shape. */
  predicate IsSendTimeValue(v: Value)
  {
    v.DateTime? || (v.Str? && IsSendTime(v.text))
  }

  /**
   * The number of leading entries of a list that setRecipients appends before it stops:
   * every entry before it is a valid recipient, and the entry at it (if any) is not.
   */
  function ValidPrefixLength(items: seq<Value>): (k: nat)
    ensures k <= |items|
    ensures forall j :: 0 <= j < k ==> IsRecipient(items[j])
    ensures k < |items| ==> !IsRecipient(items[k])
  {
    if items == [] || !IsRecipient(items[0]) then 0 else 1 + ValidPrefixLength(items[1..])
  }

  /** The texts of a list of string values, in order. */
  function Texts(items: seq<Value>): (texts: seq<string>)
    requires forall j :: 0 <= j < |items| ==> items[j].Str?
    ensures |texts| == |items|
    ensures forall j :: 0 <= j < |items| ==> texts[j] == items[j].text
  {
    if items == [] then [] else Texts(items[..|items| - 1]) + [items[|items| - 1].text]
  }

  /** Every plus sign followed by twelve digits is a recipient number. */
  lemma AcceptsNumber(digits: string)
    requires |digits| == 12 && AllDigits(digits)
    ensures IsRecipientNumber("+" + digits)
  {
    RecipientNumberParts(digits, []);
    assert "+" + digits + [] == "+" + digits;
  }

  lemma AcceptsNumberWithFinalNewline()
    ensures IsRecipientNumber("+420123456789\n")
  {
  }

  lemma AcceptsSendTime()
    ensures IsSendTime("2024-01-02T15:04:05")
  {
  }

  /** Only the digit shape is checked: no calendar or clock range applies. */
  lemma ChecksShapeOnly()
    ensures IsSendTime("9999-99-99T99:99:99")
  {
  }

  lemma RejectsNonTimes()
    ensures !IsSendTime("2024-01-02")
    ensures !IsSendTime("not-a-date")
    ensures !IsSendTime("2024-01-02T15:04:05+00:00")
  {
  }

  /**
   * The recipient pattern, described part by part: a plus sign, a maximal run of
   * digits and what follows it match exactly when the run has twelve digits and
   * nothing or a single newline follows.
   */
  lemma {:induction false} RecipientNumberParts(digits: string, tail: string)
    requires AllDigits(digits)
    requires tail == [] || !IsDigit(tail[0])
    ensures IsRecipientNumber("+" + digits + tail) <==> |digits| == 12 && (tail == [] || tail == "\n")
  {
    var s := "+" + digits + tail;
    assert forall i :: 1 <= i <= |digits| ==> s[i] == digits[i - 1];
    assert forall i :: |digits| < i < |s| ==> s[i] == tail[i - 1 - |digits|];
    if |digits| < 12 {
      if tail != [] {
        assert !Fits(s[1 + |digits|], RecipientShape[1 + |digits|]);
      }
    } else if |digits| > 12 {
      assert IsDigit(s[13]);
    }
  }

  /** setRecipients stops at the first refused entry, whatever follows it. */
  lemma StopsAtFirstRefused()
    ensures ValidPrefixLength([Str("+420123456789"), Str("123"), Str("+420987654321")]) == 1
  {
  }
}
