/**
 * The chatbot's in-memory vector store: a bag-of-terms embedding over a fixed
 * vocabulary, cosine scoring, top-K search, upsert and refresh from the
 * inventory catalog.
 *
 * Java doubles are modelled as exact reals and Math.sqrt as a function
 * `sqrt` that is only required, through IsSqrt, to return the exact
 * non-negative square root.
 */
module VectorStore {
  import opened Wrappers
  import opened JavaText
  import opened Catalog
  import opened Ranking

  /** The 57 terms, in order, whose presence makes up an embedding. */
  const Vocabulary: seq<string> := [
    "produit", "product", "prix", "price", "stock", "disponible", "available",
    "catégorie", "category", "description", "qualité", "quality", "nouveau", "new",
    "promotion", "sale", "discount", "remise", "livraison", "delivery", "gratuit", "free",
    "électronique", "electronics", "vêtement", "clothing", "maison", "home",
    "sport", "beauty", "beauté", "livre", "book", "jouet", "toy", "alimentaire", "food",
    "ordinateur", "computer", "téléphone", "phone", "tablette", "tablet",
    "accessoire", "accessory", "meilleur", "best", "populaire", "popular",
    "euro", "€", "cher", "expensive", "pas cher", "cheap", "abordable", "affordable"
  ]

  /** `sqrt` returns the exact non-negative square root of every non-negative real. */
  ghost predicate IsSqrt(sqrt: real -> real) {
    forall x :: 0.0 <= x ==> 0.0 <= sqrt(x) && sqrt(x) * sqrt(x) == x
  }

  lemma SqrtPositive(sqrt: real -> real, x: real)
    requires IsSqrt(sqrt) && 0.0 < x
    ensures 0.0 < sqrt(x)
  {
    assert sqrt(x) * sqrt(x) == x;
  }

  // Real arithmetic the solver needs spelled out.

  /** The product `p` of two positive numbers is positive. */
  lemma MulPositive(a: real, b: real, p: real)
    requires 0.0 < a && 0.0 < b && p == a * b
    ensures 0.0 < p
  {
  }

  lemma MulNonNegative(a: real, b: real)
    requires 0.0 <= a && 0.0 <= b
    ensures 0.0 <= a * b
  {
    if 0.0 < a && 0.0 < b {
      MulPositive(a, b, a * b);
    }
  }

  /** The square `q` of `t` is never negative, and it is positive unless `t` is 0. */
  lemma SquareSign(t: real, q: real)
    requires q == t * t
    ensures 0.0 <= q
    ensures t != 0.0 ==> 0.0 < q
  {
    if 0.0 < t {
      MulPositive(t, t, q);
    } else if t < 0.0 {
      MulPositive(-t, -t, q);
    }
  }

  /** A number whose square is at most d * d, for a positive d, lies between -d and d. */
  lemma SquareBound(x: real, d: real)
    requires 0.0 < d && x * x <= d * d
    ensures -d <= x <= d
  {
    if d < x {
      MulPositive(x - d, x + d, (x - d) * (x + d));
    } else if x < -d {
      MulPositive(-x - d, d - x, (-x - d) * (d - x));
    }
  }

  /** A quotient by a positive d of a number between -d and d lies between -1 and 1. */
  lemma QuotientBound(x: real, d: real)
    requires 0.0 < d && -d <= x <= d
    ensures -1.0 <= x / d <= 1.0
  {
    var q := x / d;
    assert q * d == x;
    if 1.0 < q {
      MulPositive(q - 1.0, d, (q - 1.0) * d);
    } else if q < -1.0 {
      MulPositive(-1.0 - q, d, (-1.0 - q) * d);
    }
  }

  lemma SelfRatio(n: real)
    requires 0.0 < n
    ensures n / n == 1.0
  {
    assert (n / n) * n == n;
    Cancel(n / n, 1.0, n);
  }

  lemma ProductSquare(p: real, q: real)
    ensures (p * q) * (p * q) == (p * p) * (q * q)
  {
  }

  /**
   * The step of Cauchy–Schwarz: with D * D <= A * B for non-negative A and B,
   * the cross term 2 D x y is at most A y² + B x².
   */
  lemma CrossTerm(A: real, B: real, D: real, x: real, y: real)
    requires 0.0 <= A && 0.0 <= B && D * D <= A * B
    ensures 2.0 * D * (x * y) <= A * (y * y) + B * (x * x)
  {
    var xx, yy, xy := x * x, y * y, x * y;
    SquareSign(x, xx);
    SquareSign(y, yy);
    MulNonNegative(A, yy);
    MulNonNegative(B, xx);
    if A == 0.0 {
      var dd := D * D;
      SquareSign(D, dd);
      assert A * B == 0.0;
      assert D == 0.0;
    } else {
      var gap := A * yy + B * xx - 2.0 * D * xy;
      var t := A * y - D * x;
      assert t * t == A * A * yy - 2.0 * A * D * xy + D * D * xx;
      assert A * gap == A * A * yy + A * B * xx - 2.0 * A * D * xy;
      assert A * gap == t * t + (A * B - D * D) * xx;
      var tt := t * t;
      SquareSign(t, tt);
      MulNonNegative(A * B - D * D, xx);
      if gap < 0.0 {
        MulPositive(A, -gap, A * -gap);
      }
    }
  }

  lemma Cancel(a: real, b: real, c: real)
    requires 0.0 < c && a * c == b * c
    ensures a == b
  {
    if a < b {
      MulPositive(b - a, c, (b - a) * c);
    } else if b < a {
      MulPositive(a - b, c, (a - b) * c);
    }
  }

  // ---------------------------------------------------------------------------
  // Vectors

  /** Sum of the squares of the components, accumulated from the first one. */
  function SumSq(v: seq<real>): real {
    if v == [] then 0.0 else SumSq(v[..|v| - 1]) + v[|v| - 1] * v[|v| - 1]
  }

  /** Dot product of two vectors of the same length, accumulated from the first component. */
  function Dot(a: seq<real>, b: seq<real>): real
    requires |a| == |b|
  {
    if a == [] then 0.0 else Dot(a[..|a| - 1], b[..|b| - 1]) + a[|a| - 1] * b[|b| - 1]
  }

  ghost predicate IsZero(v: seq<real>) {
    forall i :: 0 <= i < |v| ==> v[i] == 0.0
  }

  /** Every component divided by `norm`. */
  function Normalized(v: seq<real>, norm: real): (r: seq<real>)
    requires 0.0 < norm
    ensures |r| == |v|
  {
    seq(|v|, i requires 0 <= i < |v| => v[i] / norm)
  }

  /** Every component is 0 or 1. */
  ghost predicate IsBinary(v: seq<real>) {
    forall i :: 0 <= i < |v| ==> v[i] == 0.0 || v[i] == 1.0
  }

  /** The squared length of a 0/1 vector counts its ones: it is at least each component, and 0 only for the zero vector. */
  lemma {:induction false} SumSqBinary(v: seq<real>)
    requires IsBinary(v)
    ensures 0.0 <= SumSq(v)
    ensures forall i :: 0 <= i < |v| ==> v[i] <= SumSq(v)
    ensures SumSq(v) == 0.0 <==> IsZero(v)
  {
    if v != [] {
      var u := v[..|v| - 1];
      assert forall i :: 0 <= i < |u| ==> u[i] == v[i];
      SumSqBinary(u);
    }
  }

  /** Dividing every component by `d` divides the squared length by `d * d`. */
  lemma {:induction false} SumSqNormalized(v: seq<real>, d: real)
    requires 0.0 < d
    ensures SumSq(Normalized(v, d)) * (d * d) == SumSq(v)
  {
    if v != [] {
      var u := v[..|v| - 1];
      var x := v[|v| - 1];
      assert Normalized(v, d)[..|v| - 1] == Normalized(u, d);
      SumSqNormalized(u, d);
      var y := x / d;
      assert y * d == x;
      assert (y * y) * (d * d) == x * x;
      var a := SumSq(Normalized(u, d));
      assert Normalized(v, d)[|v| - 1] == y;
      assert SumSq(Normalized(v, d)) == a + y * y;
      assert (a + y * y) * (d * d) == a * (d * d) + (y * y) * (d * d);
      assert a * (d * d) == SumSq(u);
      assert SumSq(v) == SumSq(u) + x * x;
    }
  }

  /** A squared length is never negative, and it is 0 only for the zero vector. */
  lemma {:induction false} SumSqSign(v: seq<real>)
    ensures 0.0 <= SumSq(v)
    ensures SumSq(v) == 0.0 <==> IsZero(v)
  {
    if v != [] {
      var u := v[..|v| - 1];
      var x := v[|v| - 1];
      var q := x * x;
      SumSqSign(u);
      SquareSign(x, q);
      assert SumSq(v) == SumSq(u) + q;
      assert forall i :: 0 <= i < |u| ==> u[i] == v[i];
      if IsZero(v) {
        assert IsZero(u) && x == 0.0;
        assert SumSq(v) == 0.0;
      } else {
        if IsZero(u) {
          assert x != 0.0;
        } else {
          assert 0.0 < SumSq(u);
        }
        assert 0.0 < SumSq(v);
      }
    }
  }

  /** Cauchy–Schwarz: the squared dot product is at most the product of the squared lengths. */
  lemma {:induction false} CauchySchwarz(a: seq<real>, b: seq<real>)
    requires |a| == |b|
    ensures Dot(a, b) * Dot(a, b) <= SumSq(a) * SumSq(b)
  {
    if a != [] {
      var a', b' := a[..|a| - 1], b[..|b| - 1];
      var x, y := a[|a| - 1], b[|b| - 1];
      CauchySchwarz(a', b');
      SumSqSign(a');
      SumSqSign(b');
      var A, B, D := SumSq(a'), SumSq(b'), Dot(a', b');
      CrossTerm(A, B, D, x, y);
      assert (D + x * y) * (D + x * y) == D * D + 2.0 * D * (x * y) + (x * x) * (y * y);
      assert (A + x * x) * (B + y * y) == A * B + A * (y * y) + B * (x * x) + (x * x) * (y * y);
    }
  }

  lemma {:induction false} DotSelf(a: seq<real>)
    ensures Dot(a, a) == SumSq(a)
  {
    if a != [] {
      DotSelf(a[..|a| - 1]);
    }
  }

  lemma {:induction false} DotSymmetric(a: seq<real>, b: seq<real>)
    requires |a| == |b|
    ensures Dot(a, b) == Dot(b, a)
  {
    if a != [] {
      DotSymmetric(a[..|a| - 1], b[..|b| - 1]);
    }
  }

  lemma {:induction false} DotZero(a: seq<real>, b: seq<real>)
    requires |a| == |b| && IsZero(a)
    ensures Dot(a, b) == 0.0
  {
    if a != [] {
      DotZero(a[..|a| - 1], b[..|b| - 1]);
      assert a[|a| - 1] == 0.0;
    }
  }

  // ---------------------------------------------------------------------------
  // Embedding (createSimpleEmbedding)

  /** Component i is 1 when the lower-cased text contains term i, else 0. */
  function Presence(lower: string): (r: seq<real>)
    ensures |r| == |Vocabulary|
  {
    seq(|Vocabulary|, i requires 0 <= i < |Vocabulary| => if Contains(lower, Vocabulary[i]) then 1.0 else 0.0)
  }

  /** The presence vector of the lower-cased text, divided by its length when that is positive. */
  function Embedding(text: string, sqrt: real -> real): (r: seq<real>)
    ensures |r| == 57
  {
    Normalize(Presence(ToLower(text)), sqrt)
  }

  /** The vector divided by its norm, or left as it is when the norm is not positive. */
  function Normalize(p: seq<real>, sqrt: real -> real): (r: seq<real>)
    ensures |r| == |p|
  {
    var norm := sqrt(SumSq(p));
    if norm > 0.0 then Normalized(p, norm) else p
  }


  /** Dividing a vector by its positive norm gives it squared length 1. */
  lemma NormalizedUnit(v: seq<real>, sqrt: real -> real)
    requires IsSqrt(sqrt) && 0.0 < SumSq(v)
    ensures 0.0 < sqrt(SumSq(v))
    ensures SumSq(Normalized(v, sqrt(SumSq(v)))) == 1.0
  {
    var s := SumSq(v);
    SqrtPositive(sqrt, s);
    var n := sqrt(s);
    SumSqNormalized(v, n);
    assert n * n == s;
    Cancel(SumSq(Normalized(v, n)), 1.0, s);
  }

  /** Normalizing the zero vector leaves it zero. */
  lemma NormalizeZero(p: seq<real>, sqrt: real -> real)
    requires IsZero(p)
    ensures IsZero(Normalize(p, sqrt))
  {
    var norm := sqrt(SumSq(p));
    if norm > 0.0 {
      forall i | 0 <= i < |p|
        ensures Normalized(p, norm)[i] == 0.0
      {
        assert p[i] == 0.0;
      }
    }
  }

  /** A 0/1 vector with a one normalizes to squared length 1. */
  lemma NormalizeBinaryUnit(p: seq<real>, sqrt: real -> real)
    requires IsSqrt(sqrt) && IsBinary(p) && !IsZero(p)
    ensures SumSq(Normalize(p, sqrt)) == 1.0
  {
    SumSqBinary(p);
    NormalizedUnit(p, sqrt);
  }

  /**
   * Normalizing a 0/1 vector: a component is non-zero exactly where the
   * vector has a one, none is negative, and all non-zero ones are equal.
   */
  lemma NormalizeBinaryComponents(p: seq<real>, sqrt: real -> real, i: int, j: int)
    requires IsSqrt(sqrt) && IsBinary(p)
    requires 0 <= i < |p| && 0 <= j < |p|
    ensures var e := Normalize(p, sqrt);
      && (e[i] != 0.0 <==> p[i] == 1.0)
      && 0.0 <= e[i]
      && (e[i] != 0.0 && e[j] != 0.0 ==> e[i] == e[j])
  {
    if p[i] == 1.0 {
      SumSqBinary(p);
      NormalizedUnit(p, sqrt);
    }
  }

  /** No vocabulary term occurs in the lower-cased text. */
  ghost predicate NoTerm(text: string) {
    forall i :: 0 <= i < |Vocabulary| ==> !Contains(ToLower(text), Vocabulary[i])
  }

  /**
   * A component of an embedding is non-zero exactly when its term occurs in
   * the lower-cased text; none is negative and all non-zero ones are equal.
   */
  lemma EmbeddingTerms(text: string, sqrt: real -> real, i: int, j: int)
    requires IsSqrt(sqrt)
    requires 0 <= i < |Vocabulary| && 0 <= j < |Vocabulary|
    ensures var e := Embedding(text, sqrt);
      && (e[i] != 0.0 <==> Contains(ToLower(text), Vocabulary[i]))
      && 0.0 <= e[i]
      && (e[i] != 0.0 && e[j] != 0.0 ==> e[i] == e[j])
  {
    var p := Presence(ToLower(text));
    assert IsBinary(p);
    NormalizeBinaryComponents(p, sqrt, i, j);
  }

  /** Without a term the embedding stays zero; otherwise its squares sum to one. */
  lemma EmbeddingNorm(text: string, sqrt: real -> real)
    requires IsSqrt(sqrt)
    ensures NoTerm(text) ==> IsZero(Embedding(text, sqrt))
    ensures !NoTerm(text) ==> SumSq(Embedding(text, sqrt)) == 1.0
  {
    var p := Presence(ToLower(text));
    assert IsBinary(p);
    if !NoTerm(text) {
      var i :| 0 <= i < |Vocabulary| && Contains(ToLower(text), Vocabulary[i]);
      assert p[i] == 1.0;
      NormalizeBinaryUnit(p, sqrt);
    } else {
      assert IsZero(p);
      NormalizeZero(p, sqrt);
    }
  }

  // ---------------------------------------------------------------------------
  // Cosine similarity (cosineSimilarity)

  /** The cosine of the angle between two vectors, 0 when their lengths differ or a norm is 0. */
  function Cosine(a: seq<real>, b: seq<real>, sqrt: real -> real): real {
    if |a| != |b| then 0.0
    else
      var d := sqrt(SumSq(a)) * sqrt(SumSq(b));
      if d > 0.0 then Dot(a, b) / d else 0.0
  }

  /** Vectors of different lengths, or with an all-zero side, score 0. */
  lemma CosineDegenerate(a: seq<real>, b: seq<real>, sqrt: real -> real)
    requires |a| != |b| || IsZero(a) || IsZero(b)
    ensures Cosine(a, b, sqrt) == 0.0
  {
    if |a| == |b| {
      if IsZero(a) {
        DotZero(a, b);
      } else {
        DotZero(b, a);
        DotSymmetric(a, b);
      }
    }
  }

  lemma CosineSymmetric(a: seq<real>, b: seq<real>, sqrt: real -> real)
    ensures Cosine(a, b, sqrt) == Cosine(b, a, sqrt)
  {
    if |a| == |b| {
      DotSymmetric(a, b);
    }
  }

  /** sa and sb are non-negative square roots of A and B, and D * D is at most A * B. */
  ghost predicate RootsOfBound(D: real, A: real, B: real, sa: real, sb: real) {
    0.0 <= sa && 0.0 <= sb && sa * sa == A && sb * sb == B && D * D <= A * B
  }

  /** D lies between -(sa * sb) and sa * sb. */
  ghost predicate WithinProduct(D: real, sa: real, sb: real) {
    -(sa * sb) <= D <= sa * sb
  }

  /** A number whose square is at most A * B lies within the product of the square roots of A and B. */
  lemma ProductRoot(D: real, A: real, B: real, sa: real, sb: real)
    requires RootsOfBound(D, A, B, sa, sb)
    ensures WithinProduct(D, sa, sb)
  {
    var p := sa * sb;
    ProductSquare(sa, sb);
    assert p * p == A * B;
    MulNonNegative(sa, sb);
    if 0.0 < p {
      SquareBound(D, p);
    } else {
      var dd := D * D;
      SquareSign(D, dd);
      assert D == 0.0;
    }
  }

  /** The dot product is at most the product of the two norms in absolute value. */
  lemma DotWithinNorms(a: seq<real>, b: seq<real>, sqrt: real -> real)
    requires IsSqrt(sqrt) && |a| == |b|
    ensures WithinProduct(Dot(a, b), sqrt(SumSq(a)), sqrt(SumSq(b)))
  {
    assert 0.0 <= SumSq(a) && 0.0 <= SumSq(b) by {
      SumSqSign(a);
      SumSqSign(b);
    }
    assert RootsOfBound(Dot(a, b), SumSq(a), SumSq(b), sqrt(SumSq(a)), sqrt(SumSq(b))) by {
      assert 0.0 <= sqrt(SumSq(a)) && sqrt(SumSq(a)) * sqrt(SumSq(a)) == SumSq(a);
      assert 0.0 <= sqrt(SumSq(b)) && sqrt(SumSq(b)) * sqrt(SumSq(b)) == SumSq(b);
      CauchySchwarz(a, b);
    }
    ProductRoot(Dot(a, b), SumSq(a), SumSq(b), sqrt(SumSq(a)), sqrt(SumSq(b)));
  }

  /** Every similarity lies between -1 and 1. */
  lemma CosineBounded(a: seq<real>, b: seq<real>, sqrt: real -> real)
    requires IsSqrt(sqrt)
    ensures -1.0 <= Cosine(a, b, sqrt) <= 1.0
  {
    if |a| == |b| {
      var d := sqrt(SumSq(a)) * sqrt(SumSq(b));
      DotWithinNorms(a, b, sqrt);
      if 0.0 < d {
        QuotientBound(Dot(a, b), d);
      }
    }
  }

  /** Every vector that is not all zero scores exactly 1 against itself. */
  lemma CosineSelf(a: seq<real>, sqrt: real -> real)
    requires IsSqrt(sqrt) && !IsZero(a)
    ensures Cosine(a, a, sqrt) == 1.0
  {
    DotSelf(a);
    SumSqSign(a);
    var n, s := SumSq(a), sqrt(SumSq(a));
    assert s * s == n;
    assert Cosine(a, a, sqrt) == n / n;
    SelfRatio(n);
  }

  /** A text mentioning some vocabulary term is a perfect match for itself. */
  lemma EmbeddingSelfMatch(text: string, sqrt: real -> real)
    requires IsSqrt(sqrt) && !NoTerm(text)
    ensures Cosine(Embedding(text, sqrt), Embedding(text, sqrt), sqrt) == 1.0
  {
    EmbeddingNorm(text, sqrt);
    SumSqSign(Embedding(text, sqrt));
    CosineSelf(Embedding(text, sqrt), sqrt);
  }

  // ---------------------------------------------------------------------------
  // Documents and search

  /** VectorDocument: the text, its embedding and the product it describes (null for a free document). */
  datatype Document = Document(id: string, text: string, embedding: seq<real>, product: Option<Product>)

  function Min(a: int, b: int): int {
    if a <= b then a else b
  }

  function Score(q: seq<real>, d: Document, sqrt: real -> real): real {
    Cosine(q, d.embedding, sqrt)
  }

  /**
   * `r` is a valid answer to a top-`k` query with embedding `q`: `min(k, size)`
   * stored documents, each at most once, best first, and no document left out
   * scores above one kept. Among equal scores any order is allowed.
   */
  ghost predicate IsTopK(documents: map<string, Document>, q: seq<real>, sqrt: real -> real, k: nat, r: seq<Document>) {
    && |r| == Min(k, |documents|)
    && (forall i :: 0 <= i < |r| ==> r[i].id in documents && documents[r[i].id] == r[i])
    && (forall i, j :: 0 <= i < j < |r| ==> r[i].id != r[j].id)
    && (forall i, j :: 0 <= i < j < |r| ==> Score(q, r[j], sqrt) <= Score(q, r[i], sqrt))
    && (forall id, i :: id in documents && 0 <= i < |r| && (forall j :: 0 <= j < |r| ==> r[j].id != id) ==>
          Score(q, documents[id], sqrt) <= Score(q, r[i], sqrt))
  }

  /**
   * similaritySearch: an empty store answers an empty list whatever `topK`;
   * otherwise a negative `topK` makes Stream.limit throw, and any other is a top-K answer.
   */
  ghost predicate IsSearchResult(documents: map<string, Document>, query: string, topK: int, sqrt: real -> real,
                                 result: Result<seq<Document>>) {
    if |documents| == 0 then result == Ok([])
    else if topK < 0 then result == Err
    else result.Ok? && IsTopK(documents, Embedding(query, sqrt), sqrt, topK, result.value)
  }

  /** `docs` lists every stored document exactly once. */
  ghost predicate IsListing(documents: map<string, Document>, docs: seq<Document>) {
    && |docs| == |documents|
    && (forall i :: 0 <= i < |docs| ==> docs[i].id in documents && documents[docs[i].id] == docs[i])
    && (forall i, j :: 0 <= i < j < |docs| ==> docs[i].id != docs[j].id)
    && (forall id :: id in documents ==> exists i :: 0 <= i < |docs| && docs[i].id == id)
  }

  /** `docs` lists, each once, the stored documents whose ids are not in `remaining`. */
  ghost predicate PartialListing(documents: map<string, Document>, remaining: set<string>, docs: seq<Document>) {
    && remaining <= documents.Keys
    && |docs| + |remaining| == |documents|
    && (forall i :: 0 <= i < |docs| ==> docs[i].id in documents && documents[docs[i].id] == docs[i] && docs[i].id !in remaining)
    && (forall i, j :: 0 <= i < j < |docs| ==> docs[i].id != docs[j].id)
    && (forall id :: id in documents && id !in remaining ==> exists i :: 0 <= i < |docs| && docs[i].id == id)
  }

  lemma PartialListingStep(documents: map<string, Document>, remaining: set<string>, docs: seq<Document>, id: string)
    requires forall k :: k in documents ==> documents[k].id == k
    requires PartialListing(documents, remaining, docs) && id in remaining
    ensures PartialListing(documents, remaining - {id}, docs + [documents[id]])
  {
    var docs' := docs + [documents[id]];
    forall k | k in documents && k !in remaining - {id}
      ensures exists i :: 0 <= i < |docs'| && docs'[i].id == k
    {
      if k == id {
        assert docs'[|docs|].id == k;
      } else {
        var i :| 0 <= i < |docs| && docs[i].id == k;
        assert docs'[i] == docs[i];
      }
    }
  }

  /** The documents of the first `n` entries of a ranking. */
  function TopOf(ranked: seq<(Document, real)>, n: nat): (r: seq<Document>)
    ensures |r| == Min(n, |ranked|)
    ensures forall i :: 0 <= i < |r| ==> r[i] == ranked[i].0
  {
    seq(Min(n, |ranked|), i requires 0 <= i < Min(n, |ranked|) => ranked[i].0)
  }

  ghost predicate ScoredEntry(documents: map<string, Document>, q: seq<real>, sqrt: real -> real, e: (Document, real)) {
    e.0.id in documents && documents[e.0.id] == e.0 && e.1 == Score(q, e.0, sqrt)
  }

  ghost predicate DistinctIds(xs: seq<(Document, real)>) {
    forall i, j :: 0 <= i < j < |xs| ==> xs[i].0.id != xs[j].0.id
  }

  /** Reordering scored documents keeps their ids distinct. */
  lemma RankedIdsDistinct(scored: seq<(Document, real)>, ranked: seq<(Document, real)>)
    requires multiset(scored) == multiset(ranked) && DistinctIds(scored)
    ensures DistinctIds(ranked)
  {
    PermutationMembers(scored, ranked);
    PermutationDistinct(scored, ranked);
    forall i, j | 0 <= i < j < |ranked|
      ensures ranked[i].0.id != ranked[j].0.id
    {
      var p :| 0 <= p < |scored| && scored[p] == ranked[i];
      var p' :| 0 <= p' < |scored| && scored[p'] == ranked[j];
    }
  }

  /** A scored document left out of the first `n` of a ranking scores no more than any of them. */
  lemma RankedDominance(documents: map<string, Document>, q: seq<real>, sqrt: real -> real,
                        scored: seq<(Document, real)>, ranked: seq<(Document, real)>, n: nat, id: string, i: int)
    requires multiset(scored) == multiset(ranked) && SortedDesc(ranked)
    requires forall p :: 0 <= p < |scored| ==> ScoredEntry(documents, q, sqrt, scored[p])
    requires exists p :: 0 <= p < |scored| && scored[p].0.id == id
    requires 0 <= i < n <= |ranked|
    requires forall j :: 0 <= j < n ==> ranked[j].0.id != id
    ensures id in documents && Score(q, documents[id], sqrt) <= ranked[i].1
  {
    var p :| 0 <= p < |scored| && scored[p].0.id == id;
    PermutationMembers(scored, ranked);
    var j :| 0 <= j < |ranked| && ranked[j] == scored[p];
    assert ranked[j].1 <= ranked[i].1;
  }

  /** Reordering scored entries keeps each one a stored document with its score. */
  lemma RankedEntries(documents: map<string, Document>, q: seq<real>, sqrt: real -> real,
                      scored: seq<(Document, real)>, ranked: seq<(Document, real)>)
    requires multiset(scored) == multiset(ranked)
    requires forall i :: 0 <= i < |scored| ==> ScoredEntry(documents, q, sqrt, scored[i])
    ensures forall i :: 0 <= i < |ranked| ==> ScoredEntry(documents, q, sqrt, ranked[i])
  {
    PermutationMembers(scored, ranked);
    forall i | 0 <= i < |ranked|
      ensures ScoredEntry(documents, q, sqrt, ranked[i])
    {
      var p :| 0 <= p < |scored| && scored[p] == ranked[i];
    }
  }

  /** The first `k` documents of a ranking of distinct stored entries are stored, distinct and in score order. */
  lemma TopOfRanked(documents: map<string, Document>, q: seq<real>, sqrt: real -> real,
                    ranked: seq<(Document, real)>, k: nat)
    requires |ranked| == |documents| && SortedDesc(ranked) && DistinctIds(ranked)
    requires forall i :: 0 <= i < |ranked| ==> ScoredEntry(documents, q, sqrt, ranked[i])
    ensures var r := TopOf(ranked, k);
      && |r| == Min(k, |documents|)
      && (forall i :: 0 <= i < |r| ==> r[i].id in documents && documents[r[i].id] == r[i])
      && (forall i, j :: 0 <= i < j < |r| ==> r[i].id != r[j].id)
      && (forall i, j :: 0 <= i < j < |r| ==> Score(q, r[j], sqrt) <= Score(q, r[i], sqrt))
  {
    var r := TopOf(ranked, k);
    forall i, j | 0 <= i < j < |r|
      ensures Score(q, r[j], sqrt) <= Score(q, r[i], sqrt)
    {
      assert ScoredEntry(documents, q, sqrt, ranked[i]) && ScoredEntry(documents, q, sqrt, ranked[j]);
    }
  }

  /** A stored document left out of the first `k` of the ranking scores no more than any kept one. */
  lemma TopOfDominates(documents: map<string, Document>, q: seq<real>, sqrt: real -> real,
                       scored: seq<(Document, real)>, ranked: seq<(Document, real)>, k: nat)
    requires multiset(scored) == multiset(ranked) && SortedDesc(ranked)
    requires forall i :: 0 <= i < |scored| ==> ScoredEntry(documents, q, sqrt, scored[i])
    requires forall i :: 0 <= i < |ranked| ==> ScoredEntry(documents, q, sqrt, ranked[i])
    requires forall id :: id in documents ==> exists i :: 0 <= i < |scored| && scored[i].0.id == id
    ensures var r := TopOf(ranked, k);
      forall id, i :: id in documents && 0 <= i < |r| && (forall j :: 0 <= j < |r| ==> r[j].id != id) ==>
        Score(q, documents[id], sqrt) <= Score(q, r[i], sqrt)
  {
    var r := TopOf(ranked, k);
    forall id, i | id in documents && 0 <= i < |r| && (forall j :: 0 <= j < |r| ==> r[j].id != id)
      ensures Score(q, documents[id], sqrt) <= Score(q, r[i], sqrt)
    {
      RankedDominance(documents, q, sqrt, scored, ranked, |r|, id, i);
      assert ScoredEntry(documents, q, sqrt, ranked[i]);
    }
  }

  /** Scoring a listing entry by entry keeps every stored id once, each with its own score. */
  lemma ScoredListing(documents: map<string, Document>, q: seq<real>, sqrt: real -> real,
                      docs: seq<Document>, scored: seq<(Document, real)>)
    requires IsListing(documents, docs) && |scored| == |docs|
    requires forall k :: 0 <= k < |docs| ==> scored[k].0 == docs[k] && ScoredEntry(documents, q, sqrt, scored[k])
    ensures |scored| == |documents| && DistinctIds(scored)
    ensures forall id :: id in documents ==> exists k :: 0 <= k < |scored| && scored[k].0.id == id
  {
    forall id | id in documents
      ensures exists k :: 0 <= k < |scored| && scored[k].0.id == id
    {
      var k :| 0 <= k < |docs| && docs[k].id == id;
      assert scored[k].0.id == id;
    }
  }

  /** Sorting the scored listing and keeping its first `k` documents answers the top-K query. */
  lemma RankingIsTopK(documents: map<string, Document>, q: seq<real>, sqrt: real -> real,
                      scored: seq<(Document, real)>, k: nat)
    requires |scored| == |documents|
    requires forall i :: 0 <= i < |scored| ==> ScoredEntry(documents, q, sqrt, scored[i])
    requires DistinctIds(scored)
    requires forall id :: id in documents ==> exists i :: 0 <= i < |scored| && scored[i].0.id == id
    ensures IsTopK(documents, q, sqrt, k, TopOf(SortDesc(scored), k))
  {
    var ranked := SortDesc(scored);
    var r := TopOf(ranked, k);
    PermutationMembers(scored, ranked);
    RankedIdsDistinct(scored, ranked);
    RankedEntries(documents, q, sqrt, scored, ranked);
    TopOfRanked(documents, q, sqrt, ranked, k);
    TopOfDominates(documents, q, sqrt, scored, ranked, k);
  }

  // ---------------------------------------------------------------------------
  // Refresh from the catalog

  /** "product_" followed by the id, or "null" for a product without one. */
  function DocumentId(p: Product): (r: string)
    ensures StartsWith(r, "product_")
  {
    "product_" + (match p.id case Some(n) => IntToString(n) case None => "null")
  }

  function ProductDocument(p: Product, sqrt: real -> real): Document {
    var text := EmbeddingText(p);
    Document(DocumentId(p), text, Embedding(text, sqrt), Some(p))
  }

  /**
   * The products before the first null element: the refresh loop throws on a
   * null product, and the exception ends the loop.
   */
  function Processed(fetched: seq<Option<Product>>): (r: seq<Product>)
    ensures |r| <= |fetched|
    ensures forall i :: 0 <= i < |r| ==> fetched[i] == Some(r[i])
    ensures |r| < |fetched| ==> fetched[|r|] == None
  {
    if fetched == [] || fetched[0].None? then [] else [fetched[0].value] + Processed(fetched[1..])
  }

  /** The store after upserting, in order, every product of the fetch up to the first null one. */
  function Refreshed(documents: map<string, Document>, fetched: seq<Option<Product>>, sqrt: real -> real): map<string, Document>
    decreases |fetched|
  {
    if fetched == [] || fetched[0].None? then documents
    else
      var p := fetched[0].value;
      Refreshed(documents[DocumentId(p) := ProductDocument(p, sqrt)], fetched[1..], sqrt)
  }

  /** The document ids of a sequence of products. */
  ghost function Ids(ps: seq<Product>): set<string> {
    set p | p in ps :: DocumentId(p)
  }

  lemma ProcessedStep(fetched: seq<Option<Product>>)
    requires fetched != [] && fetched[0].Some?
    ensures Processed(fetched) == [fetched[0].value] + Processed(fetched[1..])
    ensures Ids(Processed(fetched)) == {DocumentId(fetched[0].value)} + Ids(Processed(fetched[1..]))
  {
    var ps := Processed(fetched);
    assert forall p :: p in ps <==> p == ps[0] || p in ps[1..];
  }

  /** After a refresh the keys are the old keys plus the id of every processed product. */
  lemma {:induction false} RefreshedKeys(documents: map<string, Document>, fetched: seq<Option<Product>>, sqrt: real -> real)
    ensures Refreshed(documents, fetched, sqrt).Keys == documents.Keys + Ids(Processed(fetched))
    decreases |fetched|
  {
    if fetched != [] && fetched[0].Some? {
      var p := fetched[0].value;
      RefreshedKeys(documents[DocumentId(p) := ProductDocument(p, sqrt)], fetched[1..], sqrt);
      ProcessedStep(fetched);
    }
  }

  /** A refresh leaves alone every document whose id no processed product has. */
  lemma {:induction false} RefreshedKeeps(documents: map<string, Document>, fetched: seq<Option<Product>>, sqrt: real -> real,
                                          id: string)
    requires id in documents && id !in Ids(Processed(fetched))
    ensures id in Refreshed(documents, fetched, sqrt) && Refreshed(documents, fetched, sqrt)[id] == documents[id]
    decreases |fetched|
  {
    if fetched != [] && fetched[0].Some? {
      var p := fetched[0].value;
      ProcessedStep(fetched);
      RefreshedKeeps(documents[DocumentId(p) := ProductDocument(p, sqrt)], fetched[1..], sqrt, id);
    }
  }

  /** A first product whose id no later product repeats leaves its id out of the rest. */
  lemma HeadIdNotLater(fetched: seq<Option<Product>>)
    requires fetched != [] && fetched[0].Some?
    requires forall j :: 0 < j < |Processed(fetched)| ==> DocumentId(Processed(fetched)[j]) != DocumentId(Processed(fetched)[0])
    ensures DocumentId(fetched[0].value) !in Ids(Processed(fetched[1..]))
  {
    ProcessedStep(fetched);
    var ps := Processed(fetched);
    var rest := Processed(fetched[1..]);
    forall q | q in rest
      ensures DocumentId(q) != DocumentId(fetched[0].value)
    {
      var j :| 0 <= j < |rest| && rest[j] == q;
      assert ps[j + 1] == q;
    }
  }

  /** `f` applied to each element, in order. */
  function Mapped<A, B>(xs: seq<A>, f: A -> B): (r: seq<B>)
    ensures |r| == |xs| && forall i :: 0 <= i < |xs| ==> r[i] == f(xs[i])
  {
    seq(|xs|, i requires 0 <= i < |xs| => f(xs[i]))
  }

  /** Mapping a non-empty sequence maps its head, then its tail. */
  lemma MappedCons<A, B>(xs: seq<A>, f: A -> B)
    requires xs != []
    ensures Mapped(xs, f) == [f(xs[0])] + Mapped(xs[1..], f)
  {
    assert Mapped(xs, f)[1..] == Mapped(xs[1..], f);
  }

  /** The documents of the products, in order. */
  function DocumentsOf(ps: seq<Product>, sqrt: real -> real): seq<Document> {
    Mapped(ps, p => ProductDocument(p, sqrt))
  }

  /** The store after putting the documents in order, each under its own id. */
  function Upserted(documents: map<string, Document>, docs: seq<Document>): map<string, Document>
    decreases |docs|
  {
    if docs == [] then documents else Upserted(documents[docs[0].id := docs[0]], docs[1..])
  }

  /** A refresh puts the documents of the processed products in order. */
  lemma {:induction false} RefreshedUpserts(documents: map<string, Document>, fetched: seq<Option<Product>>, sqrt: real -> real)
    ensures Refreshed(documents, fetched, sqrt) == Upserted(documents, DocumentsOf(Processed(fetched), sqrt))
    decreases |fetched|
  {
    if fetched != [] && fetched[0].Some? {
      var p := fetched[0].value;
      var d := documents[DocumentId(p) := ProductDocument(p, sqrt)];
      RefreshedUpserts(d, fetched[1..], sqrt);
      var ps := Processed(fetched);
      assert ps == [p] + Processed(fetched[1..]);
      assert ps[1..] == Processed(fetched[1..]);
      var docs := DocumentsOf(ps, sqrt);
      MappedCons(ps, q => ProductDocument(q, sqrt));
      assert docs[0] == ProductDocument(p, sqrt) && docs[1..] == DocumentsOf(ps[1..], sqrt);
      assert Upserted(documents, docs) == Upserted(d, docs[1..]);
    }
  }

  /** A document whose id no later document repeats is the one stored under that id. */
  lemma {:induction false} UpsertedLastWins(documents: map<string, Document>, docs: seq<Document>, i: int)
    requires 0 <= i < |docs|
    requires forall j :: i < j < |docs| ==> docs[j].id != docs[i].id
    ensures docs[i].id in Upserted(documents, docs) && Upserted(documents, docs)[docs[i].id] == docs[i]
    decreases |docs|
  {
    var d := documents[docs[0].id := docs[0]];
    if i == 0 {
      UpsertedKeeps(d, docs[1..], docs[0].id);
    } else {
      assert forall j :: i - 1 < j < |docs[1..]| ==> docs[1..][j] == docs[j + 1];
      UpsertedLastWins(d, docs[1..], i - 1);
    }
  }

  /** Putting documents none of which has the id leaves that id's entry alone. */
  lemma {:induction false} UpsertedKeeps(documents: map<string, Document>, docs: seq<Document>, id: string)
    requires id in documents && forall j :: 0 <= j < |docs| ==> docs[j].id != id
    ensures id in Upserted(documents, docs) && Upserted(documents, docs)[id] == documents[id]
    decreases |docs|
  {
    if docs != [] {
      assert forall j :: 0 <= j < |docs[1..]| ==> docs[1..][j] == docs[j + 1];
      UpsertedKeeps(documents[docs[0].id := docs[0]], docs[1..], id);
    }
  }

  /** Under each processed id sits the document of the last product fetched with that id. */
  lemma RefreshedLastWins(documents: map<string, Document>, fetched: seq<Option<Product>>, sqrt: real -> real,
                          i: int)
    requires 0 <= i < |Processed(fetched)|
    requires forall j :: i < j < |Processed(fetched)| ==> DocumentId(Processed(fetched)[j]) != DocumentId(Processed(fetched)[i])
    ensures var id := DocumentId(Processed(fetched)[i]);
      id in Refreshed(documents, fetched, sqrt) && Refreshed(documents, fetched, sqrt)[id] == ProductDocument(Processed(fetched)[i], sqrt)
  {
    var ps := Processed(fetched);
    var docs := DocumentsOf(ps, sqrt);
    forall j | i <= j < |ps|
      ensures docs[j].id == DocumentId(ps[j])
    {
      assert docs[j] == ProductDocument(ps[j], sqrt);
    }
    RefreshedUpserts(documents, fetched, sqrt);
    UpsertedLastWins(documents, docs, i);
  }

  /** The sum of the squares of the array's components, accumulated in one pass. */
  method SquaredLength(a: array<real>) returns (norm: real)
    ensures norm == SumSq(a[..])
  {
    norm := 0.0;
    var i := 0;
    while i < a.Length
      invariant 0 <= i <= a.Length
      invariant norm == SumSq(a[..i])
    {
      assert a[..i + 1][..i] == a[..i];
      norm := norm + a[i] * a[i];
      i := i + 1;
    }
    assert a[..i] == a[..];
  }

  /** Divides every component of the array by `norm`, in place. */
  method DivideAll(a: array<real>, norm: real)
    requires 0.0 < norm
    modifies a
    ensures a[..] == Normalized(old(a[..]), norm)
  {
    var i := 0;
    while i < a.Length
      invariant 0 <= i <= a.Length
      invariant forall k :: 0 <= k < i ==> a[k] == old(a[k]) / norm
      invariant forall k :: i <= k < a.Length ==> a[k] == old(a[k])
    {
      a[i] := a[i] / norm;
      i := i + 1;
    }
  }

  // ---------------------------------------------------------------------------
  // The store

  /** SimpleVectorStore: documents keyed by id. */
  class SimpleVectorStore {
    const sqrt: real -> real
    var documents: map<string, Document>

    /** Every document is stored under its own id, with the embedding of its text. */
    ghost predicate Valid()
      reads this
    {
      && IsSqrt(sqrt)
      && forall id :: id in documents ==>
           documents[id].id == id && documents[id].embedding == Embedding(documents[id].text, sqrt)
    }

    constructor (sqrt: real -> real)
      requires IsSqrt(sqrt)
      ensures Valid() && this.sqrt == sqrt && documents == map[]
    {
      this.sqrt := sqrt;
      documents := map[];
    }

    /** createSimpleEmbedding: fills a presence array, sums its squares and divides by the norm. */
    method CreateSimpleEmbedding(text: string) returns (e: seq<real>)
      ensures e == Embedding(text, sqrt)
    {
      var lower := ToLower(text);
      ghost var p := Presence(lower);
      var a := new real[|Vocabulary|](_ => 0.0);
      var i := 0;
      while i < a.Length
        invariant 0 <= i <= a.Length
        invariant forall k :: 0 <= k < i ==> a[k] == p[k]
        invariant forall k :: i <= k < a.Length ==> a[k] == 0.0
      {
        if Contains(lower, Vocabulary[i]) {
          a[i] := 1.0;
        }
        i := i + 1;
      }
      assert a[..] == p;
      var norm := SquaredLength(a);
      norm := sqrt(norm);
      if norm > 0.0 {
        DivideAll(a, norm);
      }
      e := a[..];
    }

    /** cosineSimilarity: accumulates the dot product and both squared lengths in one pass. */
    method CosineSimilarity(a: seq<real>, b: seq<real>) returns (s: real)
      ensures s == Cosine(a, b, sqrt)
    {
      if |a| != |b| {
        return 0.0;
      }
      var dot, normA, normB := 0.0, 0.0, 0.0;
      var i := 0;
      while i < |a|
        invariant 0 <= i <= |a|
        invariant dot == Dot(a[..i], b[..i])
        invariant normA == SumSq(a[..i]) && normB == SumSq(b[..i])
      {
        assert a[..i + 1][..i] == a[..i] && b[..i + 1][..i] == b[..i];
        dot := dot + a[i] * b[i];
        normA := normA + a[i] * a[i];
        normB := normB + b[i] * b[i];
        i := i + 1;
      }
      assert a[..i] == a && b[..i] == b;
      var denominator := sqrt(normA) * sqrt(normB);
      s := if denominator > 0.0 then dot / denominator else 0.0;
    }

    /** addDocument: stores the document under `id`, replacing any earlier one. */
    method AddDocument(id: string, text: string, product: Option<Product>)
      requires Valid()
      modifies this
      ensures Valid()
      ensures documents == old(documents)[id := Document(id, text, Embedding(text, sqrt), product)]
    {
      var e := CreateSimpleEmbedding(text);
      documents := documents[id := Document(id, text, e, product)];
    }

    /**
     * refreshProductData: upserts every fetched product under its document id.
     * A failed fetch changes nothing; a null product ends the loop, keeping the
     * upserts made before it.
     */
    method RefreshProductData(fetched: Result<seq<Option<Product>>>)
      requires Valid()
      modifies this
      ensures Valid()
      ensures documents == (if fetched.Err? then old(documents) else Refreshed(old(documents), fetched.value, sqrt))
    {
      if fetched.Err? {
        return;
      }
      var products := fetched.value;
      var i := 0;
      while i < |products|
        invariant 0 <= i <= |products|
        invariant Valid()
        invariant Refreshed(documents, products[i..], sqrt) == Refreshed(old(documents), products, sqrt)
      {
        if products[i].None? {
          break;
        }
        var product := products[i].value;
        var docId := DocumentId(product);
        var text := EmbeddingText(product);
        var embedding := CreateSimpleEmbedding(text);
        var doc := Document(docId, text, embedding, Some(product));
        assert doc == ProductDocument(product, sqrt);
        assert products[i..][1..] == products[i + 1..];
        assert Refreshed(documents, products[i..], sqrt) == Refreshed(documents[docId := doc], products[i + 1..], sqrt);
        documents := documents[docId := doc];
        i := i + 1;
      }
    }

    /** The stored documents, each once, in the map's iteration order. */
    method Values() returns (docs: seq<Document>)
      requires Valid()
      ensures IsListing(documents, docs)
    {
      docs := [];
      var remaining := documents.Keys;
      while remaining != {}
        invariant PartialListing(documents, remaining, docs)
        decreases remaining
      {
        var id :| id in remaining;
        PartialListingStep(documents, remaining, docs, id);
        docs := docs + [documents[id]];
        remaining := remaining - {id};
      }
    }

    /** getAllDocuments: a fresh list of the stored documents. */
    method GetAllDocuments() returns (docs: seq<Document>)
      requires Valid()
      ensures IsListing(documents, docs)
    {
      docs := Values();
    }

    /** Pairs each listed document with its cosine similarity to the query embedding `q`. */
    method ScoreAll(q: seq<real>, docs: seq<Document>) returns (scored: seq<(Document, real)>)
      requires IsListing(documents, docs)
      ensures |scored| == |docs|
      ensures forall k :: 0 <= k < |docs| ==> scored[k].0 == docs[k] && ScoredEntry(documents, q, sqrt, scored[k])
    {
      scored := [];
      for i := 0 to |docs|
        invariant |scored| == i
        invariant forall k :: 0 <= k < i ==> scored[k].0 == docs[k] && ScoredEntry(documents, q, sqrt, scored[k])
      {
        var s := CosineSimilarity(q, docs[i].embedding);
        scored := scored + [(docs[i], s)];
      }
    }

    /**
     * similaritySearch: scores every stored document against the query's
     * embedding, sorts best first and keeps the first `topK`.
     */
    method SimilaritySearch(query: string, topK: int) returns (result: Result<seq<Document>>)
      requires Valid()
      ensures IsSearchResult(documents, query, topK, sqrt, result)
    {
      if |documents| == 0 {
        return Ok([]);
      }
      var q := CreateSimpleEmbedding(query);
      if topK < 0 {
        return Err;
      }
      var docs := Values();
      var scored := ScoreAll(q, docs);
      ScoredListing(documents, q, sqrt, docs, scored);
      RankingIsTopK(documents, q, sqrt, scored, topK);
      result := Ok(TopOf(SortDesc(scored), topK));
    }
  }

  /** An empty store answers every query with an empty list, even for a negative `topK`. */
  lemma EmptyStoreSearch(query: string, topK: int, sqrt: real -> real, result: Result<seq<Document>>)
    requires IsSearchResult(map[], query, topK, sqrt, result)
    ensures result == Ok([])
  {
  }

  /**
   * Searching for the exact text of a stored document that mentions a
   * vocabulary term ranks first a document that is a perfect match.
   */
  lemma SearchFindsExactText(documents: map<string, Document>, id: string, sqrt: real -> real, topK: int,
                             result: Result<seq<Document>>)
    requires IsSqrt(sqrt) && id in documents && 0 < topK
    requires documents[id].embedding == Embedding(documents[id].text, sqrt) && !NoTerm(documents[id].text)
    requires IsSearchResult(documents, documents[id].text, topK, sqrt, result)
    ensures result.Ok? && |result.value| > 0
    ensures Score(Embedding(documents[id].text, sqrt), result.value[0], sqrt) == 1.0
  {
    var d := documents[id];
    var q := Embedding(d.text, sqrt);
    EmbeddingSelfMatch(d.text, sqrt);
    assert Score(q, d, sqrt) == 1.0;
    var r := result.value;
    if exists j :: 0 <= j < |r| && r[j].id == id {
      var j :| 0 <= j < |r| && r[j].id == id;
      if j > 0 {
        assert Score(q, r[j], sqrt) <= Score(q, r[0], sqrt);
      }
    }
    CosineBounded(q, r[0].embedding, sqrt);
  }
}
