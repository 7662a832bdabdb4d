/** Playback times: four BCD bytes, and the 90 kHz ticks they stand for. */
module Times {
  import opened Disc

  predicate Bytes(t: BcdTime) {
    t.hour < 256 && t.minute < 256 && t.second < 256 && t.frame < 256
  }

  /** The ticks of a time, digit by digit. Frames last 3000 or 3600 ticks. */
  function Ticks(t: BcdTime): nat {
    var seconds := Digits(t.hour) * 3600 + Digits(t.minute) * 60 + Digits(t.second);
    seconds * 90000 + Digits(t.frame % 64) * if t.frame / 128 % 2 == 1 then 3000 else 3600
  }

  /** The number the two decimal digits of a byte stand for. */
  function Digits(b: nat): nat {
    b / 16 * 10 + b % 16
  }

  function Bcd(n: nat): nat {
    n / 10 * 16 + n % 10
  }

  method ConvertTime(t: BcdTime) returns (result: nat)
    ensures result == Ticks(t)
  {
    result := t.hour / 16 * 10 * 60 * 60 * 90000;
    result := result + t.hour % 16 * 60 * 60 * 90000;
    result := result + t.minute / 16 * 10 * 60 * 90000;
    result := result + t.minute % 16 * 60 * 90000;
    result := result + t.second / 16 * 10 * 90000;
    result := result + t.second % 16 * 90000;
    var frames := t.frame / 16 % 4 * 10;
    frames := frames + t.frame % 16;
    FrameDigits(t.frame);
    if t.frame / 128 % 2 == 1 {
      result := result + frames * 3000;
    } else {
      result := result + frames * 3600;
    }
  }

  lemma FrameDigits(f: nat)
    ensures Digits(f % 64) == f / 16 % 4 * 10 + f % 16
  {
    var q, a, b := f / 64, f % 64 / 16, f % 64 % 16;
    assert f == 16 * (4 * q + a) + b;
    assert f / 16 == 4 * q + a && f % 16 == b;
  }

  /** A time written in BCD at 25 or 30 frames a second reads back as its length. */
  lemma TicksOfBcd(h: nat, m: nat, s: nat, f: nat, thirty: bool)
    requires h < 100 && m < 60 && s < 60 && f < if thirty then 30 else 25
    ensures var rate := if thirty then 30 else 25;
            var t := BcdTime(Bcd(h), Bcd(m), Bcd(s), (if thirty then 0xC0 else 0x40) + Bcd(f));
            Bytes(t) && Ticks(t) * rate == ((h * 3600 + m * 60 + s) * rate + f) * 90000
  {
    hide Digits, Bcd;
    DigitsOfBcd(h);
    DigitsOfBcd(m);
    DigitsOfBcd(s);
    DigitsOfBcd(f);
    FlaggedFrame(Bcd(f), thirty);
  }

  lemma FlaggedFrame(b: nat, thirty: bool)
    requires b < 64
    ensures var frame := (if thirty then 0xC0 else 0x40) + b;
            frame < 256 && frame % 64 == b && frame / 128 % 2 == if thirty then 1 else 0
  {
  }

  lemma DigitsOfBcd(n: nat)
    ensures Digits(Bcd(n)) == n
    ensures n < 100 ==> Bcd(n) < 160
    ensures n < 40 ==> Bcd(n) < 64
  {
    assert Bcd(n) / 16 == n / 10 && Bcd(n) % 16 == n % 10;
  }

  const LONGEST: nat := 0xE_0000_0000

  /** No four bytes stand for more than LONGEST ticks. */
  lemma TicksBounded(t: BcdTime)
    requires Bytes(t)
    ensures Ticks(t) < LONGEST
  {
    DigitsBounded(t.hour);
    DigitsBounded(t.minute);
    DigitsBounded(t.second);
    DigitsBounded(t.frame % 64);
  }

  lemma DigitsBounded(b: nat)
    requires b < 256
    ensures Digits(b) <= 165
  {
  }
}
