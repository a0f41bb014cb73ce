/** Shared vocabulary: options, sums over finite maps and the decimal strings that the
    stores exchange. */
module Common {

  datatype Option<+T> = None | Some(value: T)

  function Max(a: int, b: int): int {
    if a < b then b else a
  }

  function Restrict<K, V>(m: map<K, V>, keys: set<K>): map<K, V> {
    map k | k in m && k in keys :: m[k]
  }

  /** The total of all values of a finite map. */
  ghost function Sum<K>(m: map<K, int>): int {
    if m == map[] then 0
    else
      var k :| k in m;
      m[k] + Sum(m - {k})
  }

  lemma {:induction false} SumRemove<K>(m: map<K, int>, k: K)
    requires k in m
    ensures Sum(m) == m[k] + Sum(m - {k})
    decreases |m|
  {
    var j :| j in m && Sum(m) == m[j] + Sum(m - {j});
    if j != k {
      SumRemove(m - {j}, k);
      SumRemove(m - {k}, j);
      assert m - {j} - {k} == m - {k} - {j};
    }
  }

  lemma SumInsert<K>(m: map<K, int>, k: K, v: int)
    requires k !in m
    ensures Sum(m[k := v]) == Sum(m) + v
  {
    hide Sum;
    SumRemove(m[k := v], k);
    assert m[k := v] - {k} == m;
  }

  lemma {:induction false} SumSplit<K>(m: map<K, int>, keys: set<K>)
    ensures Sum(m) == Sum(Restrict(m, keys)) + Sum(m - keys)
    decreases |m|
  {
    if m == map[] {
      assert Restrict(m, keys) == m && m - keys == m;
    } else {
      hide Sum;
      var k :| k in m;
      SumRemove(m, k);
      SumSplit(m - {k}, keys);
      SplitWithout(m, keys, k);
      if k in keys { SumRemove(Restrict(m, keys), k); } else { SumRemove(m - keys, k); }
    }
  }

  lemma SplitWithout<K>(m: map<K, int>, keys: set<K>, k: K)
    ensures Restrict(m - {k}, keys) == Restrict(m, keys) - {k}
    ensures (m - {k}) - keys == (m - keys) - {k}
    ensures k in keys ==> (m - keys) - {k} == m - keys
    ensures k !in keys ==> Restrict(m, keys) - {k} == Restrict(m, keys)
  {
  }

  lemma {:induction false} SumNonNegative<K>(m: map<K, int>)
    requires forall k | k in m :: m[k] >= 0
    ensures Sum(m) >= 0
    decreases |m|
  {
    if m != map[] {
      hide Sum;
      var k :| k in m;
      SumRemove(m, k);
      SumNonNegative(m - {k});
    }
  }

  predicate NoDuplicates<T(==)>(s: seq<T>) {
    forall i, j | 0 <= i < j < |s| :: s[i] != s[j]
  }

  lemma DistinctTail<T>(s: seq<T>)
    requires s != []
    ensures NoDuplicates(s) <==> NoDuplicates(s[1..]) && s[0] !in s[1..]
    ensures forall x :: x in s <==> x == s[0] || x in s[1..]
  {
    if NoDuplicates(s[1..]) && s[0] !in s[1..] {
      forall i, j | 0 <= i < j < |s| ensures s[i] != s[j] {
        assert s[j] == s[1..][j - 1];
        if i > 0 { assert s[i] == s[1..][i - 1]; }
      }
    }
  }

  lemma DistinctAppend<T>(s: seq<T>, x: T)
    requires NoDuplicates(s) && x !in s
    ensures NoDuplicates(s + [x])
    ensures forall y :: y in s + [x] <==> y == x || y in s
  {
  }

  predicate Sorted(s: seq<int>) {
    forall i, j | 0 <= i < j < |s| :: s[i] <= s[j]
  }

  function Elements<T>(s: seq<T>): set<T> {
    set x | x in s
  }

  lemma {:induction false} SubsetIsNoLarger<T>(a: set<T>, b: set<T>)
    requires a <= b
    ensures |a| <= |b|
  {
    if a != {} {
      var x :| x in a;
      SubsetIsNoLarger(a - {x}, b - {x});
    }
  }

  // ---------------------------------------------------------------- tasks and their phases

  type Task = nat

  function Those<P>(tasks: map<Task, P>, phases: set<P>): set<Task> {
    set t | t in tasks && tasks[t] in phases
  }

  function Count<P>(tasks: map<Task, P>, phases: set<P>): nat {
    |Those(tasks, phases)|
  }

  function One(b: bool): int {
    if b then 1 else 0
  }

  lemma CountGone<P>(tasks: map<Task, P>, phases: set<P>, t: Task)
    ensures Count(tasks - {t}, phases) == Count(tasks, phases) - One(t in tasks && tasks[t] in phases)
  {
    var others := Those(tasks, phases) - {t};
    assert Those(tasks - {t}, phases) == others;
    assert Those(tasks, phases) == if t in tasks && tasks[t] in phases then others + {t} else others;
  }

  lemma CountAdded<P>(tasks: map<Task, P>, phases: set<P>, t: Task, phase: P)
    requires t !in tasks
    ensures Count(tasks[t := phase], phases) == Count(tasks, phases) + One(phase in phases)
  {
    assert Those(tasks[t := phase], phases) == if phase in phases then Those(tasks, phases) + {t} else Those(tasks, phases);
  }

  lemma CountMoved<P>(tasks: map<Task, P>, phases: set<P>, t: Task, phase: P)
    ensures Count(tasks[t := phase], phases)
         == Count(tasks, phases) - One(t in tasks && tasks[t] in phases) + One(phase in phases)
  {
    hide Count;
    CountGone(tasks, phases, t);
    CountAdded(tasks - {t}, phases, t, phase);
    assert (tasks - {t})[t := phase] == tasks[t := phase];
  }

  // ---------------------------------------------------------------- decimal strings

  predicate IsDigit(c: char) {
    '0' <= c <= '9'
  }

  function Digits(n: nat): (s: string)
    ensures |s| > 0 && forall i | 0 <= i < |s| :: IsDigit(s[i])
  {
    var last := [('0' as int + n % 10) as char];
    if n < 10 then last else Digits(n / 10) + last
  }

  function ReadDigits(s: string): Option<int> {
    if s == [] || !IsDigit(s[|s| - 1]) then None
    else
      var d := s[|s| - 1] as int - '0' as int;
      if |s| == 1 then Some(d)
      else
        match ReadDigits(s[..|s| - 1])
        case None => None
        case Some(n) => Some(10 * n + d)
  }

  lemma {:induction false} ReadDigitsInvertsDigits(n: nat)
    ensures ReadDigits(Digits(n)) == Some(n)
  {
    if n >= 10 {
      ReadDigitsInvertsDigits(n / 10);
      assert Digits(n)[..|Digits(n)| - 1] == Digits(n / 10);
    }
  }

  /** `string.format('%d', n)`. */
  function Show(n: int): string {
    if n < 0 then "-" + Digits(-n) else Digits(n)
  }

  /** `tonumber(s)` on decimal integers. */
  function ToNumber(s: string): Option<int> {
    if |s| > 0 && s[0] == '-' then
      match ReadDigits(s[1..])
      case None => None
      case Some(n) => Some(-n)
    else
      match ReadDigits(s)
      case None => None
      case Some(n) => Some(n)
  }

  /** The numbers are decimal, and nothing else is a number. */
  lemma NumbersAreDecimal(n: nat, c: char)
    ensures Show(0) == "0" && Show(120) == "120" && Show(-7) == "-7"
    ensures n >= 10 ==> Show(n) == Show(n / 10) + Show(n % 10)
    ensures n < 10 ==> Show(n) == ["0123456789"[n]]
    ensures !('0' <= c <= '9') ==> ToNumber(Show(n) + [c]) == None
    ensures ToNumber("") == None
  {
    assert Digits(12) == "12" && Digits(120) == "120";
    var s := Show(n) + [c];
    assert s[|s| - 1] == c && s[1..][|s| - 2] == c;
  }

  /** What the scripts write they read back, and it never looks like a tombstone. */
  lemma ToNumberInvertsShow(n: int)
    ensures ToNumber(Show(n)) == Some(n)
    ensures |Show(n)| > 0 && Show(n)[0] != 'x'
  {
    hide Digits, ReadDigits;
    if n < 0 {
      ReadDigitsInvertsDigits(-n);
      assert Show(n)[1..] == Digits(-n);
    } else {
      ReadDigitsInvertsDigits(n);
    }
  }
}
