/**
  The lexer: a cursor over the input text that hands out one token per call.
  `Scan` says what one call of `get_next_token` does, as a function of the
  text and the cursor position; the class `Lexer` is the cursor itself and
  its methods are proved against `Scan`.
 */
module Lexing {
  import opened Tokens
  import opened Results

  /** `current_char`: the character under the cursor, None past the end. */
  function CharAt(text: string, pos: nat): (r: Option<char>)
    ensures r.Some? <==> pos < |text|
    ensures r.Some? ==> r.value == text[pos]
  {
    if pos < |text| then Some(text[pos]) else None
  }

  /** Where `skip_whitespace` leaves the cursor: the first non-space at or after `pos`. */
  function SkipSpaces(text: string, pos: nat): (p: nat)
    decreases |text| - pos
    ensures pos <= p && (p == pos || p <= |text|)
    ensures p < |text| ==> !IsSpace(text[p])
  {
    if pos < |text| && IsSpace(text[pos]) then SkipSpaces(text, pos + 1) else pos
  }

  /** Everything `skip_whitespace` passes over is whitespace. */
  lemma {:induction false} SkippedAreSpaces(text: string, pos: nat)
    ensures forall k :: pos <= k < SkipSpaces(text, pos) ==> k < |text| && IsSpace(text[k])
    decreases |text| - pos
  {
    if pos < |text| && IsSpace(text[pos]) {
      SkippedAreSpaces(text, pos + 1);
      var p := SkipSpaces(text, pos);
      assert p == SkipSpaces(text, pos + 1);
      assert forall k :: pos < k < p ==> k < |text| && IsSpace(text[k]);
    } else {
      assert SkipSpaces(text, pos) == pos;
    }
  }

  /** The end of a digit run and the number read from it. */
  datatype Run = Run(end: nat, value: nat)

  /** What `integer` does from `pos` with `acc` the value of the digits
      already collected: it takes digits while there are any. */
  function DigitRun(text: string, pos: nat, acc: nat): (r: Run)
    decreases |text| - pos
    ensures pos <= r.end && (r.end == pos || r.end <= |text|)
    ensures r.end < |text| ==> !IsDigit(text[r.end])
    ensures r.end == pos ==> r.value == acc
  {
    if pos < |text| && IsDigit(text[pos]) then
      DigitRun(text, pos + 1, acc * 10 + DigitValue(text[pos]))
    else
      Run(pos, acc)
  }

  /** The digits collected from `p` on are a maximal run, and their value
      is what `int` gives for them. */
  lemma {:induction false} DigitRunIsNumeral(text: string, p: nat, q: nat)
    requires p <= q <= |text| && AllDigits(text[p..q])
    ensures var r := DigitRun(text, q, NumeralValue(text[p..q]));
      && r.end <= |text| && AllDigits(text[p..r.end])
      && r.value == NumeralValue(text[p..r.end])
    decreases |text| - q
  {
    if q < |text| && IsDigit(text[q]) {
      var s := text[p..q + 1];
      assert s[..|s| - 1] == text[p..q];
      assert NumeralValue(s) == NumeralValue(text[p..q]) * 10 + DigitValue(text[q]);
      DigitRunIsNumeral(text, p, q + 1);
    }
  }

  /** A run of digits from `q` up to a non-digit at `j` ends at `j`. */
  lemma {:induction false} DigitRunEnds(text: string, q: nat, j: nat, acc: nat)
    requires q <= j <= |text| && (j == |text| || !IsDigit(text[j]))
    requires forall k :: q <= k < j ==> IsDigit(text[k])
    ensures DigitRun(text, q, acc).end == j
    decreases j - q
  {
    if q < j {
      DigitRunEnds(text, q + 1, j, acc * 10 + DigitValue(text[q]));
    }
  }

  /** A token together with the cursor position after it. */
  datatype Lexeme = Lexeme(token: WfToken, end: nat)

  /** One call of `get_next_token` with the cursor at `pos`. */
  function Scan(text: string, pos: nat): (r: Result<Lexeme>)
    ensures r.Ok? ==> pos <= r.value.end
    ensures r.Ok? && r.value.token.kind != Eof ==> pos < r.value.end <= |text|
    ensures r.Ok? && r.value.token.kind == Eof ==> |text| <= r.value.end
    ensures r.Err? ==> r.error.InvalidCharacter?
  {
    var p := SkipSpaces(text, pos);
    if p >= |text| then
      Ok(Lexeme(EofToken, p))
    else if IsDigit(text[p]) then
      var run := DigitRun(text, p, 0);
      Ok(Lexeme(Token(Integer, Int(run.value)), run.end))
    else if IsSymbol(text[p]) then
      Ok(Lexeme(Token(SymbolKind(text[p]), Sym(text[p])), p + 1))
    else
      Err(InvalidCharacter(text[p], p))
  }

  /** Once the text is exhausted every call yields EOF and leaves the cursor where it is. */
  lemma EofIsSticky(text: string, pos: nat)
    requires Scan(text, pos).Ok? && Scan(text, pos).value.token.kind == Eof
    ensures forall q :: Scan(text, pos).value.end <= q ==> Scan(text, q) == Ok(Lexeme(EofToken, q))
  {
  }

  /** An INTEGER token is the base-10 value of the maximal digit run after the skipped spaces. */
  lemma IntegerTokenIsMaximalRun(text: string, pos: nat)
    requires Scan(text, pos).Ok? && Scan(text, pos).value.token.kind == Integer
    ensures var p, e := SkipSpaces(text, pos), Scan(text, pos).value.end;
      && p < e <= |text|
      && (forall k :: pos <= k < p ==> IsSpace(text[k]))
      && AllDigits(text[p..e])
      && (e == |text| || !IsDigit(text[e]))
      && Scan(text, pos).value.token.value == Int(NumeralValue(text[p..e]))
  {
    SkippedAreSpaces(text, pos);
    DigitRunIsNumeral(text, SkipSpaces(text, pos), SkipSpaces(text, pos));
  }

  /** A numeral followed by a non-digit is read back as exactly its number. */
  lemma ScanNumeral(text: string, i: nat, n: nat)
    requires i + |Digits(n)| <= |text| && text[i..i + |Digits(n)|] == Digits(n)
    requires i + |Digits(n)| == |text| || !IsDigit(text[i + |Digits(n)|])
    ensures Scan(text, i) == Ok(Lexeme(Token(Integer, Int(n)), i + |Digits(n)|))
  {
    var d, j := Digits(n), i + |Digits(n)|;
    assert text[i] == d[0];
    assert SkipSpaces(text, i) == i;
    assert forall k :: i <= k < j ==> text[k] == d[k - i];
    DigitRunEnds(text, i, j, 0);
    assert text[i..i] == [];
    DigitRunIsNumeral(text, i, i);
    NumeralValueOfDigits(n);
  }

  /** Each of `+ - * / ( )` is a token of its own and moves the cursor by one. */
  lemma ScanSymbol(text: string, i: nat)
    requires i < |text| && IsSymbol(text[i])
    ensures Scan(text, i) == Ok(Lexeme(Token(SymbolKind(text[i]), Sym(text[i])), i + 1))
  {
    assert SkipSpaces(text, i) == i;
  }

  /** The only lexical error: a character that is neither space, digit nor symbol. */
  lemma InvalidCharacterIsTheOnlyError(text: string, pos: nat)
    ensures var p := SkipSpaces(text, pos);
      Scan(text, pos).Err? <==> p < |text| && !IsSpace(text[p]) && !IsDigit(text[p]) && !IsSymbol(text[p])
    ensures Scan(text, pos).Err? ==>
      var p := SkipSpaces(text, pos); Scan(text, pos).error == InvalidCharacter(text[p], p)
  {
  }

  /** Whitespace is insignificant: skipping a run of spaces does not change the next token. */
  lemma {:induction false} SpacesAreSkipped(text: string, pos: nat, k: nat)
    requires pos <= k <= |text|
    requires forall q :: pos <= q < k ==> IsSpace(text[q])
    ensures Scan(text, pos) == Scan(text, k)
    decreases k - pos
  {
    if pos < k {
      SpacesAreSkipped(text, pos + 1, k);
      assert SkipSpaces(text, pos) == SkipSpaces(text, pos + 1);
    }
  }

  /** The lexer of `BasicCalc.py`: the text, the cursor `pos` and `current_char`. */
  class Lexer {
    const text: string
    var pos: nat
    var currentChar: Option<char>

    ghost predicate Valid()
      reads this
    {
      currentChar == CharAt(text, pos)
    }

    /** The source indexes `text[0]`, so the text must not be empty. */
    constructor (text: string)
      requires |text| > 0
      ensures Valid() && this.text == text && pos == 0 && currentChar == Some(text[0])
    {
      this.text := text;
      pos := 0;
      currentChar := Some(text[0]);
    }

    method Advance()
      modifies this
      ensures Valid() && pos == old(pos) + 1
    {
      pos := pos + 1;
      currentChar := if pos < |text| then Some(text[pos]) else None;
    }

    method SkipWhitespace()
      requires Valid()
      modifies this
      ensures Valid() && pos == SkipSpaces(text, old(pos))
    {
      while currentChar.Some? && IsSpace(currentChar.value)
        invariant Valid() && old(pos) <= pos
        invariant SkipSpaces(text, pos) == SkipSpaces(text, old(pos))
        decreases |text| - pos
      {
        Advance();
      }
    }

    /** Collects the digit run under the cursor and converts it with `int`,
        which fails on an empty run. */
    method Integer() returns (r: Result<nat>)
      requires Valid()
      modifies this
      ensures Valid() && pos == DigitRun(text, old(pos), 0).end
      ensures r == if pos == old(pos) then Err(InvalidLiteral) else Ok(DigitRun(text, old(pos), 0).value)
      ensures r.Ok? ==> AllDigits(text[old(pos)..pos]) && r.value == NumeralValue(text[old(pos)..pos])
    {
      var result: string := [];
      while currentChar.Some? && IsDigit(currentChar.value)
        invariant Valid() && old(pos) <= pos && |result| == pos - old(pos)
        invariant pos > old(pos) ==> pos <= |text| && result == text[old(pos)..pos]
        invariant AllDigits(result)
        invariant DigitRun(text, pos, NumeralValue(result)) == DigitRun(text, old(pos), 0)
        decreases |text| - pos
      {
        assert (result + [currentChar.value])[..|result|] == result;
        result := result + [currentChar.value];
        Advance();
      }
      if result == [] {
        return Err(InvalidLiteral);
      }
      return Ok(NumeralValue(result));
    }

    method GetNextToken() returns (r: Result<WfToken>)
      requires Valid()
      modifies this
      ensures Valid()
      ensures Scan(text, old(pos)) == if r.Ok? then Ok(Lexeme(r.value, pos)) else Err(r.error)
    {
      while currentChar.Some?
        invariant Valid() && old(pos) <= pos
        invariant SkipSpaces(text, pos) == SkipSpaces(text, old(pos))
        decreases |text| - pos
      {
        var c := currentChar.value;
        if IsSpace(c) {
          SkipWhitespace();
          continue;
        }
        if IsDigit(c) {
          var n := Integer();
          return Ok(Token(Kind.Integer, Int(n.value)));
        }
        if IsSymbol(c) {
          Advance();
          return Ok(Token(SymbolKind(c), Sym(c)));
        }
        return Err(InvalidCharacter(c, pos));
      }
      return Ok(EofToken);
    }
  }
}
