/**
 * The Liskov substitution examples over `int` sides: `BadSquare` overrides
 * the setters of `BadRectangle`, breaking what a client of a rectangle
 * expects; `Rectangle` and `Square` are separate shapes. Java's `int`
 * arguments are the 32-bit `Int32`, and `getArea` multiplies with wrap-around.
 */
module LiskovShapes {
  import opened JavaInt

  /** A Java `int`. */
  type Int32 = x: int | IsInt32(x)

  /**
   * `BadRectangle`, and with `isSquare` its subclass `BadSquare`, whose
   * setters override the rectangle's. Both sides start at Java's default 0.
   */
  class BadRectangle {
    const isSquare: bool
    var width: Int32
    var height: Int32

    /** A `BadSquare` always has equal sides. */
    ghost predicate Valid()
      reads this
    {
      isSquare ==> width == height
    }

    constructor (isSquare: bool)
      ensures this.isSquare == isSquare && width == 0 && height == 0 && Valid()
    {
      this.isSquare := isSquare;
      width, height := 0, 0;
    }

    /** `setWidth`: the rectangle changes only its width; the square sets both sides. */
    method SetWidth(width: Int32)
      requires Valid()
      modifies this
      ensures Valid() && this.width == width
      ensures height == if isSquare then width else old(height)
    {
      this.width := width;
      if isSquare {
        this.height := width;
      }
    }

    /** `setHeight`: the rectangle changes only its height; the square sets both sides. */
    method SetHeight(height: Int32)
      requires Valid()
      modifies this
      ensures Valid() && this.height == height
      ensures width == if isSquare then height else old(width)
    {
      this.height := height;
      if isSquare {
        this.width := height;
      }
    }

    /** `getArea`: `width * height` in `int`. */
    function Area(): (r: Int32)
      reads this
      ensures Congruent32(r, width * height)
      ensures IsInt32(width * height) ==> r == width * height
    {
      Mul32(width, height)
    }
  }

  /**
   * A client written against `BadRectangle`: set the width, set the height,
   * read the area. A rectangle gives `w * h`; a square gives `h * h`.
   */
  method ResizeAndMeasure(r: BadRectangle, w: Int32, h: Int32) returns (area: Int32)
    requires r.Valid()
    modifies r
    ensures !r.isSquare ==> area == Mul32(w, h)
    ensures r.isSquare ==> area == Mul32(h, h)
  {
    r.SetWidth(w);
    r.SetHeight(h);
    area := r.Area();
  }

  /** The substitution fails: the client that gets 2 × 3 = 6 from a rectangle gets 9 from a square. */
  method SquareBreaksClient() returns (fromRectangle: Int32, fromSquare: Int32)
    ensures fromRectangle == 6 && fromSquare == 9
  {
    var rectangle := new BadRectangle(false);
    fromRectangle := ResizeAndMeasure(rectangle, 2, 3);
    var square := new BadRectangle(true);
    fromSquare := ResizeAndMeasure(square, 2, 3);
  }

  /** `Rectangle`: sides from the constructor, independent setters. */
  class Rectangle {
    var width: Int32
    var height: Int32

    constructor (width: Int32, height: Int32)
      ensures this.width == width && this.height == height
    {
      this.width, this.height := width, height;
    }

    method SetWidth(width: Int32)
      modifies this
      ensures this.width == width && height == old(height)
    {
      this.width := width;
    }

    method SetHeight(height: Int32)
      modifies this
      ensures this.height == height && width == old(width)
    {
      this.height := height;
    }

    /** `getArea`: `width * height` in `int`. */
    function Area(): (r: Int32)
      reads this
      ensures Congruent32(r, width * height)
      ensures IsInt32(width * height) ==> r == width * height
    {
      Mul32(width, height)
    }
  }

  /** `Square`: one side. */
  class Square {
    var side: Int32

    constructor (side: Int32)
      ensures this.side == side
    {
      this.side := side;
    }

    method SetSide(side: Int32)
      modifies this
      ensures this.side == side
    {
      this.side := side;
    }

    /** `getArea`: `side * side` in `int`. */
    function Area(): (r: Int32)
      reads this
      ensures Congruent32(r, side * side)
      ensures IsInt32(side * side) ==> r == side * side
    {
      Mul32(side, side)
    }
  }

  /** With independent setters, the rectangle client gets `w * h` from a `Rectangle`. */
  method RectangleKeepsClient(r: Rectangle, w: Int32, h: Int32) returns (area: Int32)
    modifies r
    ensures area == Mul32(w, h)
  {
    r.SetWidth(w);
    r.SetHeight(h);
    area := r.Area();
  }

  /** The area wraps: a square of side 65536 has area 2^32, which is 0 in `int`. */
  lemma AreaWrapsToZero()
    ensures Mul32(65536, 65536) == 0
  {
    assert 65536 * 65536 == TWO_32;
    assert Congruent32(Mul32(65536, 65536), 0);
  }

  /** A side of 46341 already overflows to a negative area. */
  lemma AreaWrapsNegative()
    ensures Mul32(46341, 46341) < 0
  {
    assert 46341 * 46341 == 2147488281;
    assert Congruent32(Mul32(46341, 46341), 2147488281);
  }
}

/**
 * `getSize` across the two file-system hierarchies: the base class of the
 * first throws, so a subclass object cannot stand for any item; the
 * abstract base of the second leaves `getSize` to its subclasses.
 */
module LiskovFiles {
  import opened Common

  /** The concrete class of an object of the first hierarchy. */
  datatype BadKind = BadBase | BadFile(size: int) | BadDirectory

  /** `BadFileSystemItem` and its subclasses. */
  class BadFileSystemItem {
    const kind: BadKind
    var name: string

    constructor (kind: BadKind, name: string)
      ensures this.kind == kind && this.name == name
    {
      this.kind, this.name := kind, name;
    }

    /** `setName`. */
    method SetName(name: string)
      modifies this
      ensures this.name == name
    {
      this.name := name;
    }

    /** `getSize`: the base class throws; a file has its size; a directory reports 0. */
    method GetSize() returns (r: Result<int>)
      ensures r.Fail? <==> kind.BadBase?
      ensures r.Fail? ==> r.fault == UnsupportedOperation("Not implemented")
      ensures kind.BadFile? ==> r == Ok(kind.size)
      ensures kind.BadDirectory? ==> r == Ok(0)
    {
      match kind {
        case BadBase => r := Fail(UnsupportedOperation("Not implemented"));
        case BadFile(size) => r := Ok(size);
        case BadDirectory => r := Ok(0);
      }
    }
  }

  /** The concrete class of an object of the second hierarchy; the base class is abstract. */
  datatype Kind = File(size: int) | Directory

  /** `FileSystemItem` and its subclasses. */
  class FileSystemItem {
    const kind: Kind
    var name: string

    constructor (kind: Kind, name: string)
      ensures this.kind == kind && this.name == name
    {
      this.kind, this.name := kind, name;
    }

    /** `setName`. */
    method SetName(name: string)
      modifies this
      ensures this.name == name
    {
      this.name := name;
    }

    /** `getSize`: every object has one, with no error case. */
    method GetSize() returns (size: int)
      ensures kind.File? ==> size == kind.size
      ensures kind.Directory? ==> size == 0
    {
      size := if kind.File? then kind.size else 0;
    }
  }

  /** The two hierarchies agree wherever the first does not throw. */
  method HierarchiesAgree(bad: BadFileSystemItem, good: FileSystemItem) returns (b: Result<int>, g: int)
    requires bad.kind == BadDirectory <==> good.kind == Directory
    requires bad.kind.BadFile? <==> good.kind.File?
    requires bad.kind.BadFile? ==> bad.kind.size == good.kind.size
    ensures b == Ok(g)
  {
    b := bad.GetSize();
    g := good.GetSize();
  }

  /** Renaming changes the name `getName` returns and leaves the size alone. */
  method RenameKeepsSize(item: FileSystemItem, name: string) returns (before: int, after: int)
    modifies item
    ensures item.name == name && before == after
  {
    before := item.GetSize();
    item.SetName(name);
    after := item.GetSize();
  }
}
