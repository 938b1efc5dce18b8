/** The literal code trie of src/common/text.ts:4-1313.
 *
 *  Each node is a named constant `N<path>`, where `<path>` is the string of
 *  child indices leading to it from the root; the generated lemmas check the
 *  literal one sub-tree at a time against `Text.CodesMatch`. */
module TextTrie {
  import opened Wrappers
  import opened Bytes
  import opened Text

  const N0000: Trie := Leaf(Some(Char('R')), Some([0, 0, 0, 0]))
  const N0001: Trie := Leaf(Some(Char('I')), Some([0, 0, 0, 1]))
  const N000: Trie := Branch([N0000, N0001])
  const N0010: Trie := Leaf(Some(Char('N')), Some([0, 0, 1, 0]))
  const N0011000: Trie := Leaf(Some(Char('V')), Some([0, 0, 1, 1, 0, 0, 0]))
  const N001100100: Trie := Leaf(Some(Char('@')), Some([0, 0, 1, 1, 0, 0, 1, 0, 0]))
  const N001100101: Trie := Leaf(Some(Char('\n')), Some([0, 0, 1, 1, 0, 0, 1, 0, 1]))
  const N00110010: Trie := Branch([N001100100, N001100101])
  const N00110011: Trie := Leaf(Some(Char('1')), Some([0, 0, 1, 1, 0, 0, 1, 1]))
  const N0011001: Trie := Branch([N00110010, N00110011])
  const N001100: Trie := Branch([N0011000, N0011001])
  const N001101: Trie := Leaf(Some(Char('F')), Some([0, 0, 1, 1, 0, 1]))
  const N00110: Trie := Branch([N001100, N001101])
  const N00111: Trie := Leaf(Some(Char('D')), Some([0, 0, 1, 1, 1]))
  const N0011: Trie := Branch([N00110, N00111])
  const N001: Trie := Branch([N0010, N0011])
  const N00: Trie := Branch([N000, N001])
  const N01000: Trie := Leaf(Some(Terminal), Some([0, 1, 0, 0, 0]))
  const N01001: Trie := Leaf(Some(Char('C')), Some([0, 1, 0, 0, 1]))
  const N0100: Trie := Branch([N01000, N01001])
  const N0101: Trie := Leaf(Some(Char('S')), Some([0, 1, 0, 1]))
  const N010: Trie := Branch([N0100, N0101])
  const N01100000: Trie := Leaf(Some(Char('&')), Some([0, 1, 1, 0, 0, 0, 0, 0]))
  const N011000010: Trie := Leaf(Some(Char('X')), Some([0, 1, 1, 0, 0, 0, 0, 1, 0]))
  const N01100001100: Trie := Leaf(Some(Char('6')), Some([0, 1, 1, 0, 0, 0, 0, 1, 1, 0, 0]))
  const N01100001101: Trie := Leaf(Some(Char('8')), Some([0, 1, 1, 0, 0, 0, 0, 1, 1, 0, 1]))
  const N0110000110: Trie := Branch([N01100001100, N01100001101])
  const N01100001110: Trie := Leaf(Some(Char('—')), Some([0, 1, 1, 0, 0, 0, 0, 1, 1, 1, 0]))
  const N011000011110: Trie := Leaf(Some(Char('7')), Some([0, 1, 1, 0, 0, 0, 0, 1, 1, 1, 1, 0]))
  const N0110000111110: Trie := Leaf(Some(Char('$')), Some([0, 1, 1, 0, 0, 0, 0, 1, 1, 1, 1, 1, 0]))
  const N0110000111111: Trie := Leaf(Some(Char('™')), Some([0, 1, 1, 0, 0, 0, 0, 1, 1, 1, 1, 1, 1]))
  const N011000011111: Trie := Branch([N0110000111110, N0110000111111])
  const N01100001111: Trie := Branch([N011000011110, N011000011111])
  const N0110000111: Trie := Branch([N01100001110, N01100001111])
  const N011000011: Trie := Branch([N0110000110, N0110000111])
  const N01100001: Trie := Branch([N011000010, N011000011])
  const N0110000: Trie := Branch([N01100000, N01100001])
  const N01100010: Trie := Leaf(Some(Char('-')), Some([0, 1, 1, 0, 0, 0, 1, 0]))
  const N011000110: Trie := Leaf(Some(Char('Z')), Some([0, 1, 1, 0, 0, 0, 1, 1, 0]))
  const N011000111: Trie := Leaf(Some(Char('0')), Some([0, 1, 1, 0, 0, 0, 1, 1, 1]))
  const N01100011: Trie := Branch([N011000110, N011000111])
  const N0110001: Trie := Branch([N01100010, N01100011])
  const N011000: Trie := Branch([N0110000, N0110001])
  const N011001: Trie := Leaf(Some(Char('B')), Some([0, 1, 1, 0, 0, 1]))
  const N01100: Trie := Branch([N011000, N011001])
  const N01101: Trie := Leaf(Some(Char('U')), Some([0, 1, 1, 0, 1]))
  const N0110: Trie := Branch([N01100, N01101])
  const N0111: Trie := Leaf(Some(Char('A')), Some([0, 1, 1, 1]))
  const N011: Trie := Branch([N0110, N0111])
  const N01: Trie := Branch([N010, N011])
  const N0: Trie := Branch([N00, N01])
  const N1000: Trie := Leaf(Some(Char('T')), Some([1, 0, 0, 0]))
  const N1001: Trie := Leaf(Some(Char('O')), Some([1, 0, 0, 1]))
  const N100: Trie := Branch([N1000, N1001])
  const N101: Trie := Leaf(Some(Char(' ')), Some([1, 0, 1]))
  const N10: Trie := Branch([N100, N101])
  const N110000: Trie := Leaf(Some(Char('W')), Some([1, 1, 0, 0, 0, 0]))
  const N1100010: Trie := Leaf(Some(Char('.')), Some([1, 1, 0, 0, 0, 1, 0]))
  const N1100011000: Trie := Leaf(Some(Char('2')), Some([1, 1, 0, 0, 0, 1, 1, 0, 0, 0]))
  const N11000110010: Trie := Leaf(Some(Char('3')), Some([1, 1, 0, 0, 0, 1, 1, 0, 0, 1, 0]))
  const N11000110011: Trie := Leaf(Some(Char('9')), Some([1, 1, 0, 0, 0, 1, 1, 0, 0, 1, 1]))
  const N1100011001: Trie := Branch([N11000110010, N11000110011])
  const N110001100: Trie := Branch([N1100011000, N1100011001])
  const N11000110100: Trie := Leaf(Some(Char('Q')), Some([1, 1, 0, 0, 0, 1, 1, 0, 1, 0, 0]))
  const N11000110101: Trie := Leaf(Some(Char('…')), Some([1, 1, 0, 0, 0, 1, 1, 0, 1, 0, 1]))
  const N1100011010: Trie := Branch([N11000110100, N11000110101])
  const N11000110110: Trie := Leaf(Some(Char('“')), Some([1, 1, 0, 0, 0, 1, 1, 0, 1, 1, 0]))
  const N11000110111: Trie := Leaf(Some(Char('”')), Some([1, 1, 0, 0, 0, 1, 1, 0, 1, 1, 1]))
  const N1100011011: Trie := Branch([N11000110110, N11000110111])
  const N110001101: Trie := Branch([N1100011010, N1100011011])
  const N11000110: Trie := Branch([N110001100, N110001101])
  const N11000111: Trie := Leaf(Some(Char(',')), Some([1, 1, 0, 0, 0, 1, 1, 1]))
  const N1100011: Trie := Branch([N11000110, N11000111])
  const N110001: Trie := Branch([N1100010, N1100011])
  const N11000: Trie := Branch([N110000, N110001])
  const N110010: Trie := Leaf(Some(Char('G')), Some([1, 1, 0, 0, 1, 0]))
  const N11001100: Trie := Leaf(Some(Char('¡')), Some([1, 1, 0, 0, 1, 1, 0, 0]))
  const N11001101: Trie := Leaf(Some(Char('!')), Some([1, 1, 0, 0, 1, 1, 0, 1]))
  const N1100110: Trie := Branch([N11001100, N11001101])
  const N1100111000: Trie := Leaf(Some(Char('5')), Some([1, 1, 0, 0, 1, 1, 1, 0, 0, 0]))
  const N1100111001000: Trie := Leaf(Some(Char('+')), Some([1, 1, 0, 0, 1, 1, 1, 0, 0, 1, 0, 0, 0]))
  const N1100111001001: Trie := Leaf(Some(Char('=')), Some([1, 1, 0, 0, 1, 1, 1, 0, 0, 1, 0, 0, 1]))
  const N110011100100: Trie := Branch([N1100111001000, N1100111001001])
  const N110011100101: Trie := Leaf(Some(Char('4')), Some([1, 1, 0, 0, 1, 1, 1, 0, 0, 1, 0, 1]))
  const N11001110010: Trie := Branch([N110011100100, N110011100101])
  const N11001110011: Trie := Leaf(Some(Char('%')), Some([1, 1, 0, 0, 1, 1, 1, 0, 0, 1, 1]))
  const N1100111001: Trie := Branch([N11001110010, N11001110011])
  const N110011100: Trie := Branch([N1100111000, N1100111001])
  const N110011101: Trie := Leaf(Some(Char('J')), Some([1, 1, 0, 0, 1, 1, 1, 0, 1]))
  const N11001110: Trie := Branch([N110011100, N110011101])
  const N1100111100: Trie := Leaf(Some(Char('#')), Some([1, 1, 0, 0, 1, 1, 1, 1, 0, 0]))
  const N110011110100: Trie := Leaf(Some(Char('/')), Some([1, 1, 0, 0, 1, 1, 1, 1, 0, 1, 0, 0]))
  const N110011110101: Trie := Leaf(Some(Char('₧')), Some([1, 1, 0, 0, 1, 1, 1, 1, 0, 1, 0, 1]))
  const N11001111010: Trie := Branch([N110011110100, N110011110101])
  const N110011110110: Trie := Leaf(Some(Char('¿')), Some([1, 1, 0, 0, 1, 1, 1, 1, 0, 1, 1, 0]))
  const N110011110111: Trie := Leaf(Some(Char('?')), Some([1, 1, 0, 0, 1, 1, 1, 1, 0, 1, 1, 1]))
  const N11001111011: Trie := Branch([N110011110110, N110011110111])
  const N1100111101: Trie := Branch([N11001111010, N11001111011])
  const N110011110: Trie := Branch([N1100111100, N1100111101])
  const N110011111: Trie := Leaf(Some(Char(':')), Some([1, 1, 0, 0, 1, 1, 1, 1, 1]))
  const N11001111: Trie := Branch([N110011110, N110011111])
  const N1100111: Trie := Branch([N11001110, N11001111])
  const N110011: Trie := Branch([N1100110, N1100111])
  const N11001: Trie := Branch([N110010, N110011])
  const N1100: Trie := Branch([N11000, N11001])
  const N11010: Trie := Leaf(Some(Char('L')), Some([1, 1, 0, 1, 0]))
  const N11011: Trie := Leaf(Some(Char('H')), Some([1, 1, 0, 1, 1]))
  const N1101: Trie := Branch([N11010, N11011])
  const N110: Trie := Branch([N1100, N1101])
  const N111000: Trie := Leaf(Some(Char('P')), Some([1, 1, 1, 0, 0, 0]))
  const N111001: Trie := Leaf(Some(Char('Y')), Some([1, 1, 1, 0, 0, 1]))
  const N11100: Trie := Branch([N111000, N111001])
  const N111010: Trie := Leaf(Some(Char('M')), Some([1, 1, 1, 0, 1, 0]))
  const N1110110: Trie := Leaf(Some(Char('K')), Some([1, 1, 1, 0, 1, 1, 0]))
  const N1110111: Trie := Leaf(Some(Char('’')), Some([1, 1, 1, 0, 1, 1, 1]))
  const N111011: Trie := Branch([N1110110, N1110111])
  const N11101: Trie := Branch([N111010, N111011])
  const N1110: Trie := Branch([N11100, N11101])
  const N1111: Trie := Leaf(Some(Char('E')), Some([1, 1, 1, 1]))
  const N111: Trie := Branch([N1110, N1111])
  const N11: Trie := Branch([N110, N111])
  const N1: Trie := Branch([N10, N11])
  const N: Trie := Branch([N0, N1])

  const Root: Trie := N

  lemma {:induction false} SubtreeMatches011000011()
    ensures CodesMatch(N011000011, [0, 1, 1, 0, 0, 0, 0, 1, 1])
  {
    assert CodesMatch(N01100001100, [0, 1, 1, 0, 0, 0, 0, 1, 1, 0, 0]);
    assert CodesMatch(N01100001101, [0, 1, 1, 0, 0, 0, 0, 1, 1, 0, 1]);
    assert [0, 1, 1, 0, 0, 0, 0, 1, 1, 0] + [0] == [0, 1, 1, 0, 0, 0, 0, 1, 1, 0, 0];
    assert [0, 1, 1, 0, 0, 0, 0, 1, 1, 0] + [1] == [0, 1, 1, 0, 0, 0, 0, 1, 1, 0, 1];
    assert CodesMatch(N0110000110, [0, 1, 1, 0, 0, 0, 0, 1, 1, 0]);
    assert CodesMatch(N01100001110, [0, 1, 1, 0, 0, 0, 0, 1, 1, 1, 0]);
    assert CodesMatch(N011000011110, [0, 1, 1, 0, 0, 0, 0, 1, 1, 1, 1, 0]);
    assert CodesMatch(N0110000111110, [0, 1, 1, 0, 0, 0, 0, 1, 1, 1, 1, 1, 0]);
    assert CodesMatch(N0110000111111, [0, 1, 1, 0, 0, 0, 0, 1, 1, 1, 1, 1, 1]);
    assert [0, 1, 1, 0, 0, 0, 0, 1, 1, 1, 1, 1] + [0] == [0, 1, 1, 0, 0, 0, 0, 1, 1, 1, 1, 1, 0];
    assert [0, 1, 1, 0, 0, 0, 0, 1, 1, 1, 1, 1] + [1] == [0, 1, 1, 0, 0, 0, 0, 1, 1, 1, 1, 1, 1];
    assert CodesMatch(N011000011111, [0, 1, 1, 0, 0, 0, 0, 1, 1, 1, 1, 1]);
    assert [0, 1, 1, 0, 0, 0, 0, 1, 1, 1, 1] + [0] == [0, 1, 1, 0, 0, 0, 0, 1, 1, 1, 1, 0];
    assert [0, 1, 1, 0, 0, 0, 0, 1, 1, 1, 1] + [1] == [0, 1, 1, 0, 0, 0, 0, 1, 1, 1, 1, 1];
    assert CodesMatch(N01100001111, [0, 1, 1, 0, 0, 0, 0, 1, 1, 1, 1]);
    assert [0, 1, 1, 0, 0, 0, 0, 1, 1, 1] + [0] == [0, 1, 1, 0, 0, 0, 0, 1, 1, 1, 0];
    assert [0, 1, 1, 0, 0, 0, 0, 1, 1, 1] + [1] == [0, 1, 1, 0, 0, 0, 0, 1, 1, 1, 1];
    assert CodesMatch(N0110000111, [0, 1, 1, 0, 0, 0, 0, 1, 1, 1]);
    assert [0, 1, 1, 0, 0, 0, 0, 1, 1] + [0] == [0, 1, 1, 0, 0, 0, 0, 1, 1, 0];
    assert [0, 1, 1, 0, 0, 0, 0, 1, 1] + [1] == [0, 1, 1, 0, 0, 0, 0, 1, 1, 1];
    assert CodesMatch(N011000011, [0, 1, 1, 0, 0, 0, 0, 1, 1]);
  }

  lemma {:induction false} SubtreeMatches110001100()
    ensures CodesMatch(N110001100, [1, 1, 0, 0, 0, 1, 1, 0, 0])
  {
    assert CodesMatch(N1100011000, [1, 1, 0, 0, 0, 1, 1, 0, 0, 0]);
    assert CodesMatch(N11000110010, [1, 1, 0, 0, 0, 1, 1, 0, 0, 1, 0]);
    assert CodesMatch(N11000110011, [1, 1, 0, 0, 0, 1, 1, 0, 0, 1, 1]);
    assert [1, 1, 0, 0, 0, 1, 1, 0, 0, 1] + [0] == [1, 1, 0, 0, 0, 1, 1, 0, 0, 1, 0];
    assert [1, 1, 0, 0, 0, 1, 1, 0, 0, 1] + [1] == [1, 1, 0, 0, 0, 1, 1, 0, 0, 1, 1];
    assert CodesMatch(N1100011001, [1, 1, 0, 0, 0, 1, 1, 0, 0, 1]);
    assert [1, 1, 0, 0, 0, 1, 1, 0, 0] + [0] == [1, 1, 0, 0, 0, 1, 1, 0, 0, 0];
    assert [1, 1, 0, 0, 0, 1, 1, 0, 0] + [1] == [1, 1, 0, 0, 0, 1, 1, 0, 0, 1];
    assert CodesMatch(N110001100, [1, 1, 0, 0, 0, 1, 1, 0, 0]);
  }

  lemma {:induction false} SubtreeMatches110001101()
    ensures CodesMatch(N110001101, [1, 1, 0, 0, 0, 1, 1, 0, 1])
  {
    assert CodesMatch(N11000110100, [1, 1, 0, 0, 0, 1, 1, 0, 1, 0, 0]);
    assert CodesMatch(N11000110101, [1, 1, 0, 0, 0, 1, 1, 0, 1, 0, 1]);
    assert [1, 1, 0, 0, 0, 1, 1, 0, 1, 0] + [0] == [1, 1, 0, 0, 0, 1, 1, 0, 1, 0, 0];
    assert [1, 1, 0, 0, 0, 1, 1, 0, 1, 0] + [1] == [1, 1, 0, 0, 0, 1, 1, 0, 1, 0, 1];
    assert CodesMatch(N1100011010, [1, 1, 0, 0, 0, 1, 1, 0, 1, 0]);
    assert CodesMatch(N11000110110, [1, 1, 0, 0, 0, 1, 1, 0, 1, 1, 0]);
    assert CodesMatch(N11000110111, [1, 1, 0, 0, 0, 1, 1, 0, 1, 1, 1]);
    assert [1, 1, 0, 0, 0, 1, 1, 0, 1, 1] + [0] == [1, 1, 0, 0, 0, 1, 1, 0, 1, 1, 0];
    assert [1, 1, 0, 0, 0, 1, 1, 0, 1, 1] + [1] == [1, 1, 0, 0, 0, 1, 1, 0, 1, 1, 1];
    assert CodesMatch(N1100011011, [1, 1, 0, 0, 0, 1, 1, 0, 1, 1]);
    assert [1, 1, 0, 0, 0, 1, 1, 0, 1] + [0] == [1, 1, 0, 0, 0, 1, 1, 0, 1, 0];
    assert [1, 1, 0, 0, 0, 1, 1, 0, 1] + [1] == [1, 1, 0, 0, 0, 1, 1, 0, 1, 1];
    assert CodesMatch(N110001101, [1, 1, 0, 0, 0, 1, 1, 0, 1]);
  }

  lemma {:induction false} SubtreeMatches110011100()
    ensures CodesMatch(N110011100, [1, 1, 0, 0, 1, 1, 1, 0, 0])
  {
    assert CodesMatch(N1100111000, [1, 1, 0, 0, 1, 1, 1, 0, 0, 0]);
    assert CodesMatch(N1100111001000, [1, 1, 0, 0, 1, 1, 1, 0, 0, 1, 0, 0, 0]);
    assert CodesMatch(N1100111001001, [1, 1, 0, 0, 1, 1, 1, 0, 0, 1, 0, 0, 1]);
    assert [1, 1, 0, 0, 1, 1, 1, 0, 0, 1, 0, 0] + [0] == [1, 1, 0, 0, 1, 1, 1, 0, 0, 1, 0, 0, 0];
    assert [1, 1, 0, 0, 1, 1, 1, 0, 0, 1, 0, 0] + [1] == [1, 1, 0, 0, 1, 1, 1, 0, 0, 1, 0, 0, 1];
    assert CodesMatch(N110011100100, [1, 1, 0, 0, 1, 1, 1, 0, 0, 1, 0, 0]);
    assert CodesMatch(N110011100101, [1, 1, 0, 0, 1, 1, 1, 0, 0, 1, 0, 1]);
    assert [1, 1, 0, 0, 1, 1, 1, 0, 0, 1, 0] + [0] == [1, 1, 0, 0, 1, 1, 1, 0, 0, 1, 0, 0];
    assert [1, 1, 0, 0, 1, 1, 1, 0, 0, 1, 0] + [1] == [1, 1, 0, 0, 1, 1, 1, 0, 0, 1, 0, 1];
    assert CodesMatch(N11001110010, [1, 1, 0, 0, 1, 1, 1, 0, 0, 1, 0]);
    assert CodesMatch(N11001110011, [1, 1, 0, 0, 1, 1, 1, 0, 0, 1, 1]);
    assert [1, 1, 0, 0, 1, 1, 1, 0, 0, 1] + [0] == [1, 1, 0, 0, 1, 1, 1, 0, 0, 1, 0];
    assert [1, 1, 0, 0, 1, 1, 1, 0, 0, 1] + [1] == [1, 1, 0, 0, 1, 1, 1, 0, 0, 1, 1];
    assert CodesMatch(N1100111001, [1, 1, 0, 0, 1, 1, 1, 0, 0, 1]);
    assert [1, 1, 0, 0, 1, 1, 1, 0, 0] + [0] == [1, 1, 0, 0, 1, 1, 1, 0, 0, 0];
    assert [1, 1, 0, 0, 1, 1, 1, 0, 0] + [1] == [1, 1, 0, 0, 1, 1, 1, 0, 0, 1];
    assert CodesMatch(N110011100, [1, 1, 0, 0, 1, 1, 1, 0, 0]);
  }

  lemma {:induction false} SubtreeMatches110011110()
    ensures CodesMatch(N110011110, [1, 1, 0, 0, 1, 1, 1, 1, 0])
  {
    assert CodesMatch(N1100111100, [1, 1, 0, 0, 1, 1, 1, 1, 0, 0]);
    assert CodesMatch(N110011110100, [1, 1, 0, 0, 1, 1, 1, 1, 0, 1, 0, 0]);
    assert CodesMatch(N110011110101, [1, 1, 0, 0, 1, 1, 1, 1, 0, 1, 0, 1]);
    assert [1, 1, 0, 0, 1, 1, 1, 1, 0, 1, 0] + [0] == [1, 1, 0, 0, 1, 1, 1, 1, 0, 1, 0, 0];
    assert [1, 1, 0, 0, 1, 1, 1, 1, 0, 1, 0] + [1] == [1, 1, 0, 0, 1, 1, 1, 1, 0, 1, 0, 1];
    assert CodesMatch(N11001111010, [1, 1, 0, 0, 1, 1, 1, 1, 0, 1, 0]);
    assert CodesMatch(N110011110110, [1, 1, 0, 0, 1, 1, 1, 1, 0, 1, 1, 0]);
    assert CodesMatch(N110011110111, [1, 1, 0, 0, 1, 1, 1, 1, 0, 1, 1, 1]);
    assert [1, 1, 0, 0, 1, 1, 1, 1, 0, 1, 1] + [0] == [1, 1, 0, 0, 1, 1, 1, 1, 0, 1, 1, 0];
    assert [1, 1, 0, 0, 1, 1, 1, 1, 0, 1, 1] + [1] == [1, 1, 0, 0, 1, 1, 1, 1, 0, 1, 1, 1];
    assert CodesMatch(N11001111011, [1, 1, 0, 0, 1, 1, 1, 1, 0, 1, 1]);
    assert [1, 1, 0, 0, 1, 1, 1, 1, 0, 1] + [0] == [1, 1, 0, 0, 1, 1, 1, 1, 0, 1, 0];
    assert [1, 1, 0, 0, 1, 1, 1, 1, 0, 1] + [1] == [1, 1, 0, 0, 1, 1, 1, 1, 0, 1, 1];
    assert CodesMatch(N1100111101, [1, 1, 0, 0, 1, 1, 1, 1, 0, 1]);
    assert [1, 1, 0, 0, 1, 1, 1, 1, 0] + [0] == [1, 1, 0, 0, 1, 1, 1, 1, 0, 0];
    assert [1, 1, 0, 0, 1, 1, 1, 1, 0] + [1] == [1, 1, 0, 0, 1, 1, 1, 1, 0, 1];
    assert CodesMatch(N110011110, [1, 1, 0, 0, 1, 1, 1, 1, 0]);
  }

  lemma {:induction false} SubtreeMatches001100()
    ensures CodesMatch(N001100, [0, 0, 1, 1, 0, 0])
  {
    assert CodesMatch(N0011000, [0, 0, 1, 1, 0, 0, 0]);
    assert CodesMatch(N001100100, [0, 0, 1, 1, 0, 0, 1, 0, 0]);
    assert CodesMatch(N001100101, [0, 0, 1, 1, 0, 0, 1, 0, 1]);
    assert [0, 0, 1, 1, 0, 0, 1, 0] + [0] == [0, 0, 1, 1, 0, 0, 1, 0, 0];
    assert [0, 0, 1, 1, 0, 0, 1, 0] + [1] == [0, 0, 1, 1, 0, 0, 1, 0, 1];
    assert CodesMatch(N00110010, [0, 0, 1, 1, 0, 0, 1, 0]);
    assert CodesMatch(N00110011, [0, 0, 1, 1, 0, 0, 1, 1]);
    assert [0, 0, 1, 1, 0, 0, 1] + [0] == [0, 0, 1, 1, 0, 0, 1, 0];
    assert [0, 0, 1, 1, 0, 0, 1] + [1] == [0, 0, 1, 1, 0, 0, 1, 1];
    assert CodesMatch(N0011001, [0, 0, 1, 1, 0, 0, 1]);
    assert [0, 0, 1, 1, 0, 0] + [0] == [0, 0, 1, 1, 0, 0, 0];
    assert [0, 0, 1, 1, 0, 0] + [1] == [0, 0, 1, 1, 0, 0, 1];
    assert CodesMatch(N001100, [0, 0, 1, 1, 0, 0]);
  }

  lemma {:induction false} SubtreeMatches011000()
    ensures CodesMatch(N011000, [0, 1, 1, 0, 0, 0])
  {
    assert CodesMatch(N01100000, [0, 1, 1, 0, 0, 0, 0, 0]);
    assert CodesMatch(N011000010, [0, 1, 1, 0, 0, 0, 0, 1, 0]);
    SubtreeMatches011000011();
    assert [0, 1, 1, 0, 0, 0, 0, 1] + [0] == [0, 1, 1, 0, 0, 0, 0, 1, 0];
    assert [0, 1, 1, 0, 0, 0, 0, 1] + [1] == [0, 1, 1, 0, 0, 0, 0, 1, 1];
    assert CodesMatch(N01100001, [0, 1, 1, 0, 0, 0, 0, 1]);
    assert [0, 1, 1, 0, 0, 0, 0] + [0] == [0, 1, 1, 0, 0, 0, 0, 0];
    assert [0, 1, 1, 0, 0, 0, 0] + [1] == [0, 1, 1, 0, 0, 0, 0, 1];
    assert CodesMatch(N0110000, [0, 1, 1, 0, 0, 0, 0]);
    assert CodesMatch(N01100010, [0, 1, 1, 0, 0, 0, 1, 0]);
    assert CodesMatch(N011000110, [0, 1, 1, 0, 0, 0, 1, 1, 0]);
    assert CodesMatch(N011000111, [0, 1, 1, 0, 0, 0, 1, 1, 1]);
    assert [0, 1, 1, 0, 0, 0, 1, 1] + [0] == [0, 1, 1, 0, 0, 0, 1, 1, 0];
    assert [0, 1, 1, 0, 0, 0, 1, 1] + [1] == [0, 1, 1, 0, 0, 0, 1, 1, 1];
    assert CodesMatch(N01100011, [0, 1, 1, 0, 0, 0, 1, 1]);
    assert [0, 1, 1, 0, 0, 0, 1] + [0] == [0, 1, 1, 0, 0, 0, 1, 0];
    assert [0, 1, 1, 0, 0, 0, 1] + [1] == [0, 1, 1, 0, 0, 0, 1, 1];
    assert CodesMatch(N0110001, [0, 1, 1, 0, 0, 0, 1]);
    assert [0, 1, 1, 0, 0, 0] + [0] == [0, 1, 1, 0, 0, 0, 0];
    assert [0, 1, 1, 0, 0, 0] + [1] == [0, 1, 1, 0, 0, 0, 1];
    assert CodesMatch(N011000, [0, 1, 1, 0, 0, 0]);
  }

  lemma {:induction false} SubtreeMatches110001()
    ensures CodesMatch(N110001, [1, 1, 0, 0, 0, 1])
  {
    assert CodesMatch(N1100010, [1, 1, 0, 0, 0, 1, 0]);
    SubtreeMatches110001100();
    SubtreeMatches110001101();
    assert [1, 1, 0, 0, 0, 1, 1, 0] + [0] == [1, 1, 0, 0, 0, 1, 1, 0, 0];
    assert [1, 1, 0, 0, 0, 1, 1, 0] + [1] == [1, 1, 0, 0, 0, 1, 1, 0, 1];
    assert CodesMatch(N11000110, [1, 1, 0, 0, 0, 1, 1, 0]);
    assert CodesMatch(N11000111, [1, 1, 0, 0, 0, 1, 1, 1]);
    assert [1, 1, 0, 0, 0, 1, 1] + [0] == [1, 1, 0, 0, 0, 1, 1, 0];
    assert [1, 1, 0, 0, 0, 1, 1] + [1] == [1, 1, 0, 0, 0, 1, 1, 1];
    assert CodesMatch(N1100011, [1, 1, 0, 0, 0, 1, 1]);
    assert [1, 1, 0, 0, 0, 1] + [0] == [1, 1, 0, 0, 0, 1, 0];
    assert [1, 1, 0, 0, 0, 1] + [1] == [1, 1, 0, 0, 0, 1, 1];
    assert CodesMatch(N110001, [1, 1, 0, 0, 0, 1]);
  }

  lemma {:induction false} SubtreeMatches110011()
    ensures CodesMatch(N110011, [1, 1, 0, 0, 1, 1])
  {
    assert CodesMatch(N11001100, [1, 1, 0, 0, 1, 1, 0, 0]);
    assert CodesMatch(N11001101, [1, 1, 0, 0, 1, 1, 0, 1]);
    assert [1, 1, 0, 0, 1, 1, 0] + [0] == [1, 1, 0, 0, 1, 1, 0, 0];
    assert [1, 1, 0, 0, 1, 1, 0] + [1] == [1, 1, 0, 0, 1, 1, 0, 1];
    assert CodesMatch(N1100110, [1, 1, 0, 0, 1, 1, 0]);
    SubtreeMatches110011100();
    assert CodesMatch(N110011101, [1, 1, 0, 0, 1, 1, 1, 0, 1]);
    assert [1, 1, 0, 0, 1, 1, 1, 0] + [0] == [1, 1, 0, 0, 1, 1, 1, 0, 0];
    assert [1, 1, 0, 0, 1, 1, 1, 0] + [1] == [1, 1, 0, 0, 1, 1, 1, 0, 1];
    assert CodesMatch(N11001110, [1, 1, 0, 0, 1, 1, 1, 0]);
    SubtreeMatches110011110();
    assert CodesMatch(N110011111, [1, 1, 0, 0, 1, 1, 1, 1, 1]);
    assert [1, 1, 0, 0, 1, 1, 1, 1] + [0] == [1, 1, 0, 0, 1, 1, 1, 1, 0];
    assert [1, 1, 0, 0, 1, 1, 1, 1] + [1] == [1, 1, 0, 0, 1, 1, 1, 1, 1];
    assert CodesMatch(N11001111, [1, 1, 0, 0, 1, 1, 1, 1]);
    assert [1, 1, 0, 0, 1, 1, 1] + [0] == [1, 1, 0, 0, 1, 1, 1, 0];
    assert [1, 1, 0, 0, 1, 1, 1] + [1] == [1, 1, 0, 0, 1, 1, 1, 1];
    assert CodesMatch(N1100111, [1, 1, 0, 0, 1, 1, 1]);
    assert [1, 1, 0, 0, 1, 1] + [0] == [1, 1, 0, 0, 1, 1, 0];
    assert [1, 1, 0, 0, 1, 1] + [1] == [1, 1, 0, 0, 1, 1, 1];
    assert CodesMatch(N110011, [1, 1, 0, 0, 1, 1]);
  }

  lemma {:induction false} SubtreeMatches111011()
    ensures CodesMatch(N111011, [1, 1, 1, 0, 1, 1])
  {
    assert CodesMatch(N1110110, [1, 1, 1, 0, 1, 1, 0]);
    assert CodesMatch(N1110111, [1, 1, 1, 0, 1, 1, 1]);
    assert [1, 1, 1, 0, 1, 1] + [0] == [1, 1, 1, 0, 1, 1, 0];
    assert [1, 1, 1, 0, 1, 1] + [1] == [1, 1, 1, 0, 1, 1, 1];
    assert CodesMatch(N111011, [1, 1, 1, 0, 1, 1]);
  }

  lemma {:induction false} SubtreeMatches000()
    ensures CodesMatch(N000, [0, 0, 0])
  {
    assert CodesMatch(N0000, [0, 0, 0, 0]);
    assert CodesMatch(N0001, [0, 0, 0, 1]);
    assert [0, 0, 0] + [0] == [0, 0, 0, 0];
    assert [0, 0, 0] + [1] == [0, 0, 0, 1];
    assert CodesMatch(N000, [0, 0, 0]);
  }

  lemma {:induction false} SubtreeMatches001()
    ensures CodesMatch(N001, [0, 0, 1])
  {
    assert CodesMatch(N0010, [0, 0, 1, 0]);
    SubtreeMatches001100();
    assert CodesMatch(N001101, [0, 0, 1, 1, 0, 1]);
    assert [0, 0, 1, 1, 0] + [0] == [0, 0, 1, 1, 0, 0];
    assert [0, 0, 1, 1, 0] + [1] == [0, 0, 1, 1, 0, 1];
    assert CodesMatch(N00110, [0, 0, 1, 1, 0]);
    assert CodesMatch(N00111, [0, 0, 1, 1, 1]);
    assert [0, 0, 1, 1] + [0] == [0, 0, 1, 1, 0];
    assert [0, 0, 1, 1] + [1] == [0, 0, 1, 1, 1];
    assert CodesMatch(N0011, [0, 0, 1, 1]);
    assert [0, 0, 1] + [0] == [0, 0, 1, 0];
    assert [0, 0, 1] + [1] == [0, 0, 1, 1];
    assert CodesMatch(N001, [0, 0, 1]);
  }

  lemma {:induction false} SubtreeMatches010()
    ensures CodesMatch(N010, [0, 1, 0])
  {
    assert CodesMatch(N01000, [0, 1, 0, 0, 0]);
    assert CodesMatch(N01001, [0, 1, 0, 0, 1]);
    assert [0, 1, 0, 0] + [0] == [0, 1, 0, 0, 0];
    assert [0, 1, 0, 0] + [1] == [0, 1, 0, 0, 1];
    assert CodesMatch(N0100, [0, 1, 0, 0]);
    assert CodesMatch(N0101, [0, 1, 0, 1]);
    assert [0, 1, 0] + [0] == [0, 1, 0, 0];
    assert [0, 1, 0] + [1] == [0, 1, 0, 1];
    assert CodesMatch(N010, [0, 1, 0]);
  }

  lemma {:induction false} SubtreeMatches011()
    ensures CodesMatch(N011, [0, 1, 1])
  {
    SubtreeMatches011000();
    assert CodesMatch(N011001, [0, 1, 1, 0, 0, 1]);
    assert [0, 1, 1, 0, 0] + [0] == [0, 1, 1, 0, 0, 0];
    assert [0, 1, 1, 0, 0] + [1] == [0, 1, 1, 0, 0, 1];
    assert CodesMatch(N01100, [0, 1, 1, 0, 0]);
    assert CodesMatch(N01101, [0, 1, 1, 0, 1]);
    assert [0, 1, 1, 0] + [0] == [0, 1, 1, 0, 0];
    assert [0, 1, 1, 0] + [1] == [0, 1, 1, 0, 1];
    assert CodesMatch(N0110, [0, 1, 1, 0]);
    assert CodesMatch(N0111, [0, 1, 1, 1]);
    assert [0, 1, 1] + [0] == [0, 1, 1, 0];
    assert [0, 1, 1] + [1] == [0, 1, 1, 1];
    assert CodesMatch(N011, [0, 1, 1]);
  }

  lemma {:induction false} SubtreeMatches100()
    ensures CodesMatch(N100, [1, 0, 0])
  {
    assert CodesMatch(N1000, [1, 0, 0, 0]);
    assert CodesMatch(N1001, [1, 0, 0, 1]);
    assert [1, 0, 0] + [0] == [1, 0, 0, 0];
    assert [1, 0, 0] + [1] == [1, 0, 0, 1];
    assert CodesMatch(N100, [1, 0, 0]);
  }

  lemma {:induction false} SubtreeMatches110()
    ensures CodesMatch(N110, [1, 1, 0])
  {
    assert CodesMatch(N110000, [1, 1, 0, 0, 0, 0]);
    SubtreeMatches110001();
    assert [1, 1, 0, 0, 0] + [0] == [1, 1, 0, 0, 0, 0];
    assert [1, 1, 0, 0, 0] + [1] == [1, 1, 0, 0, 0, 1];
    assert CodesMatch(N11000, [1, 1, 0, 0, 0]);
    assert CodesMatch(N110010, [1, 1, 0, 0, 1, 0]);
    SubtreeMatches110011();
    assert [1, 1, 0, 0, 1] + [0] == [1, 1, 0, 0, 1, 0];
    assert [1, 1, 0, 0, 1] + [1] == [1, 1, 0, 0, 1, 1];
    assert CodesMatch(N11001, [1, 1, 0, 0, 1]);
    assert [1, 1, 0, 0] + [0] == [1, 1, 0, 0, 0];
    assert [1, 1, 0, 0] + [1] == [1, 1, 0, 0, 1];
    assert CodesMatch(N1100, [1, 1, 0, 0]);
    assert CodesMatch(N11010, [1, 1, 0, 1, 0]);
    assert CodesMatch(N11011, [1, 1, 0, 1, 1]);
    assert [1, 1, 0, 1] + [0] == [1, 1, 0, 1, 0];
    assert [1, 1, 0, 1] + [1] == [1, 1, 0, 1, 1];
    assert CodesMatch(N1101, [1, 1, 0, 1]);
    assert [1, 1, 0] + [0] == [1, 1, 0, 0];
    assert [1, 1, 0] + [1] == [1, 1, 0, 1];
    assert CodesMatch(N110, [1, 1, 0]);
  }

  lemma {:induction false} SubtreeMatches111()
    ensures CodesMatch(N111, [1, 1, 1])
  {
    assert CodesMatch(N111000, [1, 1, 1, 0, 0, 0]);
    assert CodesMatch(N111001, [1, 1, 1, 0, 0, 1]);
    assert [1, 1, 1, 0, 0] + [0] == [1, 1, 1, 0, 0, 0];
    assert [1, 1, 1, 0, 0] + [1] == [1, 1, 1, 0, 0, 1];
    assert CodesMatch(N11100, [1, 1, 1, 0, 0]);
    assert CodesMatch(N111010, [1, 1, 1, 0, 1, 0]);
    SubtreeMatches111011();
    assert [1, 1, 1, 0, 1] + [0] == [1, 1, 1, 0, 1, 0];
    assert [1, 1, 1, 0, 1] + [1] == [1, 1, 1, 0, 1, 1];
    assert CodesMatch(N11101, [1, 1, 1, 0, 1]);
    assert [1, 1, 1, 0] + [0] == [1, 1, 1, 0, 0];
    assert [1, 1, 1, 0] + [1] == [1, 1, 1, 0, 1];
    assert CodesMatch(N1110, [1, 1, 1, 0]);
    assert CodesMatch(N1111, [1, 1, 1, 1]);
    assert [1, 1, 1] + [0] == [1, 1, 1, 0];
    assert [1, 1, 1] + [1] == [1, 1, 1, 1];
    assert CodesMatch(N111, [1, 1, 1]);
  }

  lemma {:induction false} SubtreeMatches0()
    ensures CodesMatch(N0, [0])
  {
    SubtreeMatches000();
    SubtreeMatches001();
    assert [0, 0] + [0] == [0, 0, 0];
    assert [0, 0] + [1] == [0, 0, 1];
    assert CodesMatch(N00, [0, 0]);
    SubtreeMatches010();
    SubtreeMatches011();
    assert [0, 1] + [0] == [0, 1, 0];
    assert [0, 1] + [1] == [0, 1, 1];
    assert CodesMatch(N01, [0, 1]);
    assert [0] + [0] == [0, 0];
    assert [0] + [1] == [0, 1];
  }

  lemma {:induction false} SubtreeMatches10()
    ensures CodesMatch(N10, [1, 0])
  {
    SubtreeMatches100();
    assert CodesMatch(N101, [1, 0, 1]);
    assert [1, 0] + [0] == [1, 0, 0];
    assert [1, 0] + [1] == [1, 0, 1];
  }

  lemma {:induction false} SubtreeMatches11()
    ensures CodesMatch(N11, [1, 1])
  {
    SubtreeMatches110();
    SubtreeMatches111();
    assert [1, 1] + [0] == [1, 1, 0];
    assert [1, 1] + [1] == [1, 1, 1];
  }

  /** Every leaf of the literal has a char and its code is its path. */
  lemma {:induction false} RootCodesMatch()
    ensures CodesMatch(Root, [])
  {
    SubtreeMatches0();
    SubtreeMatches10();
    SubtreeMatches11();
    assert [1] + [0] == [1, 0];
    assert [1] + [1] == [1, 1];
    assert CodesMatch(N1, [1]);
    assert [] + [0] == [0];
    assert [] + [1] == [1];
    assert CodesMatch(N, []);
  }
}
