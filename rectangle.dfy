/** A rectangle given by its four corners; its area is the product of the
    two shortest of the three distances from corner `a` to the others (the
    longest being the diagonal). */
module Rectangles {
  import opened Common

  datatype Rectangle = Rectangle(a: Vector3, b: Vector3, c: Vector3, d: Vector3)

  predicate Sorted3(s: seq<real>)
  {
    |s| == 3 && s[0] <= s[1] <= s[2]
  }

  /** The three values in ascending order. */
  function Sort3(x: real, y: real, z: real): (s: seq<real>)
    ensures Sorted3(s)
  {
    if x <= y then
      if y <= z then [x, y, z]
      else if x <= z then [x, z, y]
      else [z, x, y]
    else
      if x <= z then [y, x, z]
      else if y <= z then [y, z, x]
      else [z, y, x]
  }

  /** Sorting only reorders the three values. */
  lemma Sort3IsPermutation(x: real, y: real, z: real)
    ensures multiset(Sort3(x, y, z)) == multiset([x, y, z])
  {
    if x <= y {
      if y <= z {
      } else if x <= z {
        SwapLast(x, y, z);
      } else {
        SwapFirst(x, z, y);
        SwapLast(x, y, z);
      }
    } else {
      if x <= z {
        SwapFirst(x, y, z);
      } else if y <= z {
        SwapLast(y, x, z);
        SwapFirst(x, y, z);
      } else {
        SwapFirst(y, z, x);
        SwapLast(y, x, z);
        SwapFirst(x, y, z);
      }
    }
  }

  lemma SwapFirst(a: real, b: real, c: real)
    ensures multiset([b, a, c]) == multiset([a, b, c])
  {
  }

  lemma SwapLast(a: real, b: real, c: real)
    ensures multiset([a, c, b]) == multiset([a, b, c])
  {
  }

  /** Sort, keep the first two, multiply them. */
  function ProductOfTwoSmallest(x: real, y: real, z: real): real
  {
    var sorted := Sort3(x, y, z);
    sorted[0] * sorted[1]
  }

  /** The area, with `distance` the Euclidean distance between two points. */
  function Area(r: Rectangle, distance: (Vector3, Vector3) -> real): real
  {
    ProductOfTwoSmallest(distance(r.a, r.b), distance(r.a, r.c), distance(r.a, r.d))
  }

  /** The area seen from a point of view; the point plays no part. */
  function AreaFrom(r: Rectangle, perspective: Vector3, distance: (Vector3, Vector3) -> real): (area: real)
    ensures area == Area(r, distance)
  {
    Area(r, distance)
  }

  /** The product of the two smallest is the product of the two values other
      than a largest one. */
  lemma ProductOfTwoSmallestDropsLargest(x: real, y: real, z: real)
    ensures x <= z && y <= z ==> ProductOfTwoSmallest(x, y, z) == x * y
    ensures x <= y && z <= y ==> ProductOfTwoSmallest(x, y, z) == x * z
    ensures y <= x && z <= x ==> ProductOfTwoSmallest(x, y, z) == y * z
  {
    if x <= y && y <= z {
      if x <= z && y <= z { EqualProducts(x, y, x, y); }
      if x <= y && z <= y { EqualProducts(x, y, x, z); }
      if y <= x && z <= x { EqualProducts(x, y, y, z); }
    } else if x <= y && !(y <= z) && x <= z {
      if x <= z && y <= z { EqualProducts(x, z, x, y); }
      if x <= y && z <= y { EqualProducts(x, z, x, z); }
      if y <= x && z <= x { EqualProducts(x, z, y, z); }
    } else if x <= y && !(y <= z) && !(x <= z) {
      if x <= z && y <= z { EqualProducts(z, x, x, y); }
      if x <= y && z <= y { EqualProducts(z, x, x, z); }
      if y <= x && z <= x { EqualProducts(z, x, y, z); }
    } else if !(x <= y) && x <= z {
      if x <= z && y <= z { EqualProducts(y, x, x, y); }
      if x <= y && z <= y { EqualProducts(y, x, x, z); }
      if y <= x && z <= x { EqualProducts(y, x, y, z); }
    } else if !(x <= y) && !(x <= z) && y <= z {
      if x <= z && y <= z { EqualProducts(y, z, x, y); }
      if x <= y && z <= y { EqualProducts(y, z, x, z); }
      if y <= x && z <= x { EqualProducts(y, z, y, z); }
    } else if !(x <= y) && !(x <= z) && !(y <= z) {
      if x <= z && y <= z { EqualProducts(z, y, x, y); }
      if x <= y && z <= y { EqualProducts(z, y, x, z); }
      if y <= x && z <= x { EqualProducts(z, y, y, z); }
    }
  }

  /** Products of the same two values, in either order, are equal. */
  lemma EqualProducts(a: real, b: real, c: real, d: real)
    requires (a == c && b == d) || (a == d && b == c)
    ensures a * b == c * d
  {
  }

  /** The order of the three values does not matter. */
  lemma ProductOfTwoSmallestSymmetric(x: real, y: real, z: real)
    ensures ProductOfTwoSmallest(x, y, z) == ProductOfTwoSmallest(y, x, z)
    ensures ProductOfTwoSmallest(x, y, z) == ProductOfTwoSmallest(x, z, y)
  {
    ProductOfTwoSmallestDropsLargest(x, y, z);
    ProductOfTwoSmallestDropsLargest(y, x, z);
    ProductOfTwoSmallestDropsLargest(x, z, y);
  }

  /** Exchanging corners b, c and d in any way leaves the area unchanged. */
  lemma AreaPermutationInvariant(r: Rectangle, distance: (Vector3, Vector3) -> real)
    ensures Area(Rectangle(r.a, r.c, r.b, r.d), distance) == Area(r, distance)
    ensures Area(Rectangle(r.a, r.b, r.d, r.c), distance) == Area(r, distance)
    ensures Area(Rectangle(r.a, r.d, r.c, r.b), distance) == Area(r, distance)
    ensures Area(Rectangle(r.a, r.c, r.d, r.b), distance) == Area(r, distance)
    ensures Area(Rectangle(r.a, r.d, r.b, r.c), distance) == Area(r, distance)
  {
    var ab, ac, ad := distance(r.a, r.b), distance(r.a, r.c), distance(r.a, r.d);
    ProductOfTwoSmallestSymmetric(ab, ac, ad);
    ProductOfTwoSmallestSymmetric(ac, ab, ad);
    ProductOfTwoSmallestSymmetric(ab, ad, ac);
    ProductOfTwoSmallestSymmetric(ad, ab, ac);
    ProductOfTwoSmallestSymmetric(ac, ad, ab);
  }

  /** For non-negative lengths the area is non-negative and at most the
      product of any two of the three lengths. */
  lemma ProductOfTwoSmallestBounds(x: real, y: real, z: real)
    requires 0.0 <= x && 0.0 <= y && 0.0 <= z
    ensures 0.0 <= ProductOfTwoSmallest(x, y, z)
    ensures ProductOfTwoSmallest(x, y, z) <= x * y
    ensures ProductOfTwoSmallest(x, y, z) <= x * z
    ensures ProductOfTwoSmallest(x, y, z) <= y * z
  {
    ProductOfTwoSmallestDropsLargest(x, y, z);
    if x <= z && y <= z {
      MulLe(x, x, y, z);
      MulLe(x, z, y, y);
      MulCommutes(z, y);
    } else if x <= y && z <= y {
      MulLe(x, x, z, y);
      MulLe(x, y, z, z);
      MulCommutes(y, z);
    } else {
      MulLe(y, y, z, x);
      MulCommutes(y, x);
      MulLe(y, x, z, z);
    }
  }

  lemma MulLe(a: real, b: real, c: real, d: real)
    requires 0.0 <= a <= b && 0.0 <= c <= d
    ensures a * c <= b * d
  {
    assert a * c <= b * c;
    assert b * c <= b * d;
  }

  /** For distances that are never negative the area is non-negative and at
      most the product of any two of the three corner distances. */
  lemma AreaBounds(r: Rectangle, distance: (Vector3, Vector3) -> real)
    requires forall u, v :: 0.0 <= distance(u, v)
    ensures 0.0 <= Area(r, distance)
    ensures Area(r, distance) <= distance(r.a, r.b) * distance(r.a, r.c)
    ensures Area(r, distance) <= distance(r.a, r.b) * distance(r.a, r.d)
    ensures Area(r, distance) <= distance(r.a, r.c) * distance(r.a, r.d)
  {
    ProductOfTwoSmallestBounds(distance(r.a, r.b), distance(r.a, r.c), distance(r.a, r.d));
  }
}
