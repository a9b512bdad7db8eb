/** Lower-case hexadecimal digits, as the scripts' patterns write them. */
module Hex {

  predicate IsHex(c: char) { '0' <= c <= '9' || 'a' <= c <= 'f' }
}
