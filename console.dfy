/** Standard output, as the sequence of pieces written to it. */
module Terminal {

  class Console {
    var written: seq<string>

    constructor ()
      ensures written == []
    {
      written := [];
    }

    /** `std::cout << s` */
    method Write(s: string)
      modifies this
      ensures written == old(written) + [s]
    {
      written := written + [s];
    }
  }
}
