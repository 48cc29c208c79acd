/**
 * The common base of every descriptor: a name and an offset, each with a
 * getter and a setter.
 *
 * The identifier, class and method descriptors (module Descriptors) carry a
 * name and an offset of their own rather than extending this class, since the
 * model uses no subclassing; see README.md.
 */
module Data {

  class Data {
    var name: string
    var offset: int

    constructor (name: string, offset: int)
      ensures this.name == name && this.offset == offset
    {
      this.name := name;
      this.offset := offset;
    }

    /** Reads the name; changes nothing. */
    method GetName() returns (n: string)
      ensures n == name
    {
      n := name;
    }

    /** Reads the offset; changes nothing. */
    method GetOffset() returns (o: int)
      ensures o == offset
    {
      o := offset;
    }

    /** Overwrites the name; the offset keeps its value. */
    method SetName(name: string)
      modifies this`name
      ensures this.name == name
      ensures offset == old(offset)
    {
      this.name := name;
    }

    /** Overwrites the offset; the name keeps its value. */
    method SetOffset(offset: int)
      modifies this`offset
      ensures this.offset == offset
      ensures name == old(name)
    {
      this.offset := offset;
    }
  }
}
