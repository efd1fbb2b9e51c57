/** The three configurations of the demonstration driver in
    banker-algorithm.py: seven processes, five resource kinds, the same
    maximum and allocation matrices, and three different available pools. */
module Scenarios {
  import opened Vectors
  import opened SafetySpec

  const Maximum: Matrix := [[6, 4, 5, 7, 6], [2, 1, 1, 2, 1], [3, 2, 6, 2, 3], [5, 6, 4, 3, 5],
                            [6, 5, 4, 6, 3], [3, 4, 6, 4, 4], [4, 3, 3, 2, 3]]
  const Allocation: Matrix := [[0, 1, 0, 1, 1], [1, 0, 0, 0, 1], [3, 0, 2, 1, 0], [0, 1, 1, 0, 1],
                               [0, 0, 1, 1, 1], [1, 1, 1, 1, 1], [1, 2, 1, 1, 0]]

  /** The need matrix of the demonstration data. */
  const Need: Matrix := [[6, 3, 5, 6, 5], [1, 1, 1, 2, 0], [0, 2, 4, 1, 3], [5, 5, 3, 3, 4], [6, 5, 3, 5, 2], [2, 3, 5, 3, 3], [3, 1, 2, 1, 3]]

  lemma NeedOfDemo()
    ensures IsMatrix(Maximum, 7, 5) && IsMatrix(Allocation, 7, 5)
    ensures NeedMatrix(Maximum, Allocation) == Need
  {
    forall i | 0 <= i < 7 ensures NeedMatrix(Maximum, Allocation)[i] == Need[i] {
      assert Sub(Maximum[i], Allocation[i]) == Need[i];
    }
  }

  // Each step and each pass of the demonstration runs, as the for loop makes them.

  lemma Ample1Step0()
    ensures Shaped(Need, Allocation, Progress([false, false, false, false, false, false, false], [6, 6, 6, 6, 6], []))
    ensures Step(Need, Allocation, Progress([false, false, false, false, false, false, false], [6, 6, 6, 6, 6], []), 0) == Progress([true, false, false, false, false, false, false], [6, 7, 6, 7, 7], [0])
  {
  }

  lemma Ample1Step1()
    ensures Shaped(Need, Allocation, Progress([true, false, false, false, false, false, false], [6, 7, 6, 7, 7], [0]))
    ensures Step(Need, Allocation, Progress([true, false, false, false, false, false, false], [6, 7, 6, 7, 7], [0]), 1) == Progress([true, true, false, false, false, false, false], [7, 7, 6, 7, 8], [0, 1])
  {
  }

  lemma Ample1Step2()
    ensures Shaped(Need, Allocation, Progress([true, true, false, false, false, false, false], [7, 7, 6, 7, 8], [0, 1]))
    ensures Step(Need, Allocation, Progress([true, true, false, false, false, false, false], [7, 7, 6, 7, 8], [0, 1]), 2) == Progress([true, true, true, false, false, false, false], [10, 7, 8, 8, 8], [0, 1, 2])
  {
  }

  lemma Ample1Step3()
    ensures Shaped(Need, Allocation, Progress([true, true, true, false, false, false, false], [10, 7, 8, 8, 8], [0, 1, 2]))
    ensures Step(Need, Allocation, Progress([true, true, true, false, false, false, false], [10, 7, 8, 8, 8], [0, 1, 2]), 3) == Progress([true, true, true, true, false, false, false], [10, 8, 9, 8, 9], [0, 1, 2, 3])
  {
  }

  lemma Ample1Step4()
    ensures Shaped(Need, Allocation, Progress([true, true, true, true, false, false, false], [10, 8, 9, 8, 9], [0, 1, 2, 3]))
    ensures Step(Need, Allocation, Progress([true, true, true, true, false, false, false], [10, 8, 9, 8, 9], [0, 1, 2, 3]), 4) == Progress([true, true, true, true, true, false, false], [10, 8, 10, 9, 10], [0, 1, 2, 3, 4])
  {
  }

  lemma Ample1Step5()
    ensures Shaped(Need, Allocation, Progress([true, true, true, true, true, false, false], [10, 8, 10, 9, 10], [0, 1, 2, 3, 4]))
    ensures Step(Need, Allocation, Progress([true, true, true, true, true, false, false], [10, 8, 10, 9, 10], [0, 1, 2, 3, 4]), 5) == Progress([true, true, true, true, true, true, false], [11, 9, 11, 10, 11], [0, 1, 2, 3, 4, 5])
  {
  }

  lemma Ample1Step6()
    ensures Shaped(Need, Allocation, Progress([true, true, true, true, true, true, false], [11, 9, 11, 10, 11], [0, 1, 2, 3, 4, 5]))
    ensures Step(Need, Allocation, Progress([true, true, true, true, true, true, false], [11, 9, 11, 10, 11], [0, 1, 2, 3, 4, 5]), 6) == Progress([true, true, true, true, true, true, true], [12, 11, 12, 11, 11], [0, 1, 2, 3, 4, 5, 6])
  {
  }

  lemma AmplePass1()
    ensures var st := Progress([false, false, false, false, false, false, false], [6, 6, 6, 6, 6], []);
      Shaped(Need, Allocation, st) && Pass(Need, Allocation, st) == Progress([true, true, true, true, true, true, true], [12, 11, 12, 11, 11], [0, 1, 2, 3, 4, 5, 6])
  {
    var st := Progress([false, false, false, false, false, false, false], [6, 6, 6, 6, 6], []);
    Ample1Step0();
    assert PassTo(Need, Allocation, st, 1) == Progress([true, false, false, false, false, false, false], [6, 7, 6, 7, 7], [0]);
    Ample1Step1();
    assert PassTo(Need, Allocation, st, 2) == Progress([true, true, false, false, false, false, false], [7, 7, 6, 7, 8], [0, 1]);
    Ample1Step2();
    assert PassTo(Need, Allocation, st, 3) == Progress([true, true, true, false, false, false, false], [10, 7, 8, 8, 8], [0, 1, 2]);
    Ample1Step3();
    assert PassTo(Need, Allocation, st, 4) == Progress([true, true, true, true, false, false, false], [10, 8, 9, 8, 9], [0, 1, 2, 3]);
    Ample1Step4();
    assert PassTo(Need, Allocation, st, 5) == Progress([true, true, true, true, true, false, false], [10, 8, 10, 9, 10], [0, 1, 2, 3, 4]);
    Ample1Step5();
    assert PassTo(Need, Allocation, st, 6) == Progress([true, true, true, true, true, true, false], [11, 9, 11, 10, 11], [0, 1, 2, 3, 4, 5]);
    Ample1Step6();
    assert PassTo(Need, Allocation, st, 7) == Progress([true, true, true, true, true, true, true], [12, 11, 12, 11, 11], [0, 1, 2, 3, 4, 5, 6]);
  }

  lemma Tighter1Step0()
    ensures Shaped(Need, Allocation, Progress([false, false, false, false, false, false, false], [6, 5, 5, 5, 5], []))
    ensures Step(Need, Allocation, Progress([false, false, false, false, false, false, false], [6, 5, 5, 5, 5], []), 0) == Progress([false, false, false, false, false, false, false], [6, 5, 5, 5, 5], [])
  {
    assert !Covers([6, 5, 5, 5, 5], Need[0]) by { assert Need[0][3] == 6; }
  }

  lemma Tighter1Step1()
    ensures Shaped(Need, Allocation, Progress([false, false, false, false, false, false, false], [6, 5, 5, 5, 5], []))
    ensures Step(Need, Allocation, Progress([false, false, false, false, false, false, false], [6, 5, 5, 5, 5], []), 1) == Progress([false, true, false, false, false, false, false], [7, 5, 5, 5, 6], [1])
  {
  }

  lemma Tighter1Step2()
    ensures Shaped(Need, Allocation, Progress([false, true, false, false, false, false, false], [7, 5, 5, 5, 6], [1]))
    ensures Step(Need, Allocation, Progress([false, true, false, false, false, false, false], [7, 5, 5, 5, 6], [1]), 2) == Progress([false, true, true, false, false, false, false], [10, 5, 7, 6, 6], [1, 2])
  {
  }

  lemma Tighter1Step3()
    ensures Shaped(Need, Allocation, Progress([false, true, true, false, false, false, false], [10, 5, 7, 6, 6], [1, 2]))
    ensures Step(Need, Allocation, Progress([false, true, true, false, false, false, false], [10, 5, 7, 6, 6], [1, 2]), 3) == Progress([false, true, true, true, false, false, false], [10, 6, 8, 6, 7], [1, 2, 3])
  {
  }

  lemma Tighter1Step4()
    ensures Shaped(Need, Allocation, Progress([false, true, true, true, false, false, false], [10, 6, 8, 6, 7], [1, 2, 3]))
    ensures Step(Need, Allocation, Progress([false, true, true, true, false, false, false], [10, 6, 8, 6, 7], [1, 2, 3]), 4) == Progress([false, true, true, true, true, false, false], [10, 6, 9, 7, 8], [1, 2, 3, 4])
  {
  }

  lemma Tighter1Step5()
    ensures Shaped(Need, Allocation, Progress([false, true, true, true, true, false, false], [10, 6, 9, 7, 8], [1, 2, 3, 4]))
    ensures Step(Need, Allocation, Progress([false, true, true, true, true, false, false], [10, 6, 9, 7, 8], [1, 2, 3, 4]), 5) == Progress([false, true, true, true, true, true, false], [11, 7, 10, 8, 9], [1, 2, 3, 4, 5])
  {
  }

  lemma Tighter1Step6()
    ensures Shaped(Need, Allocation, Progress([false, true, true, true, true, true, false], [11, 7, 10, 8, 9], [1, 2, 3, 4, 5]))
    ensures Step(Need, Allocation, Progress([false, true, true, true, true, true, false], [11, 7, 10, 8, 9], [1, 2, 3, 4, 5]), 6) == Progress([false, true, true, true, true, true, true], [12, 9, 11, 9, 9], [1, 2, 3, 4, 5, 6])
  {
  }

  lemma TighterPass1()
    ensures var st := Progress([false, false, false, false, false, false, false], [6, 5, 5, 5, 5], []);
      Shaped(Need, Allocation, st) && Pass(Need, Allocation, st) == Progress([false, true, true, true, true, true, true], [12, 9, 11, 9, 9], [1, 2, 3, 4, 5, 6])
  {
    var st := Progress([false, false, false, false, false, false, false], [6, 5, 5, 5, 5], []);
    Tighter1Step0();
    assert PassTo(Need, Allocation, st, 1) == Progress([false, false, false, false, false, false, false], [6, 5, 5, 5, 5], []);
    Tighter1Step1();
    assert PassTo(Need, Allocation, st, 2) == Progress([false, true, false, false, false, false, false], [7, 5, 5, 5, 6], [1]);
    Tighter1Step2();
    assert PassTo(Need, Allocation, st, 3) == Progress([false, true, true, false, false, false, false], [10, 5, 7, 6, 6], [1, 2]);
    Tighter1Step3();
    assert PassTo(Need, Allocation, st, 4) == Progress([false, true, true, true, false, false, false], [10, 6, 8, 6, 7], [1, 2, 3]);
    Tighter1Step4();
    assert PassTo(Need, Allocation, st, 5) == Progress([false, true, true, true, true, false, false], [10, 6, 9, 7, 8], [1, 2, 3, 4]);
    Tighter1Step5();
    assert PassTo(Need, Allocation, st, 6) == Progress([false, true, true, true, true, true, false], [11, 7, 10, 8, 9], [1, 2, 3, 4, 5]);
    Tighter1Step6();
    assert PassTo(Need, Allocation, st, 7) == Progress([false, true, true, true, true, true, true], [12, 9, 11, 9, 9], [1, 2, 3, 4, 5, 6]);
  }

  lemma Tighter2Step0()
    ensures Shaped(Need, Allocation, Progress([false, true, true, true, true, true, true], [12, 9, 11, 9, 9], [1, 2, 3, 4, 5, 6]))
    ensures Step(Need, Allocation, Progress([false, true, true, true, true, true, true], [12, 9, 11, 9, 9], [1, 2, 3, 4, 5, 6]), 0) == Progress([true, true, true, true, true, true, true], [12, 10, 11, 10, 10], [1, 2, 3, 4, 5, 6, 0])
  {
  }

  lemma Tighter2Step1()
    ensures Shaped(Need, Allocation, Progress([true, true, true, true, true, true, true], [12, 10, 11, 10, 10], [1, 2, 3, 4, 5, 6, 0]))
    ensures Step(Need, Allocation, Progress([true, true, true, true, true, true, true], [12, 10, 11, 10, 10], [1, 2, 3, 4, 5, 6, 0]), 1) == Progress([true, true, true, true, true, true, true], [12, 10, 11, 10, 10], [1, 2, 3, 4, 5, 6, 0])
  {
  }

  lemma Tighter2Step2()
    ensures Shaped(Need, Allocation, Progress([true, true, true, true, true, true, true], [12, 10, 11, 10, 10], [1, 2, 3, 4, 5, 6, 0]))
    ensures Step(Need, Allocation, Progress([true, true, true, true, true, true, true], [12, 10, 11, 10, 10], [1, 2, 3, 4, 5, 6, 0]), 2) == Progress([true, true, true, true, true, true, true], [12, 10, 11, 10, 10], [1, 2, 3, 4, 5, 6, 0])
  {
  }

  lemma Tighter2Step3()
    ensures Shaped(Need, Allocation, Progress([true, true, true, true, true, true, true], [12, 10, 11, 10, 10], [1, 2, 3, 4, 5, 6, 0]))
    ensures Step(Need, Allocation, Progress([true, true, true, true, true, true, true], [12, 10, 11, 10, 10], [1, 2, 3, 4, 5, 6, 0]), 3) == Progress([true, true, true, true, true, true, true], [12, 10, 11, 10, 10], [1, 2, 3, 4, 5, 6, 0])
  {
  }

  lemma Tighter2Step4()
    ensures Shaped(Need, Allocation, Progress([true, true, true, true, true, true, true], [12, 10, 11, 10, 10], [1, 2, 3, 4, 5, 6, 0]))
    ensures Step(Need, Allocation, Progress([true, true, true, true, true, true, true], [12, 10, 11, 10, 10], [1, 2, 3, 4, 5, 6, 0]), 4) == Progress([true, true, true, true, true, true, true], [12, 10, 11, 10, 10], [1, 2, 3, 4, 5, 6, 0])
  {
  }

  lemma Tighter2Step5()
    ensures Shaped(Need, Allocation, Progress([true, true, true, true, true, true, true], [12, 10, 11, 10, 10], [1, 2, 3, 4, 5, 6, 0]))
    ensures Step(Need, Allocation, Progress([true, true, true, true, true, true, true], [12, 10, 11, 10, 10], [1, 2, 3, 4, 5, 6, 0]), 5) == Progress([true, true, true, true, true, true, true], [12, 10, 11, 10, 10], [1, 2, 3, 4, 5, 6, 0])
  {
  }

  lemma Tighter2Step6()
    ensures Shaped(Need, Allocation, Progress([true, true, true, true, true, true, true], [12, 10, 11, 10, 10], [1, 2, 3, 4, 5, 6, 0]))
    ensures Step(Need, Allocation, Progress([true, true, true, true, true, true, true], [12, 10, 11, 10, 10], [1, 2, 3, 4, 5, 6, 0]), 6) == Progress([true, true, true, true, true, true, true], [12, 10, 11, 10, 10], [1, 2, 3, 4, 5, 6, 0])
  {
  }

  lemma TighterPass2()
    ensures var st := Progress([false, true, true, true, true, true, true], [12, 9, 11, 9, 9], [1, 2, 3, 4, 5, 6]);
      Shaped(Need, Allocation, st) && Pass(Need, Allocation, st) == Progress([true, true, true, true, true, true, true], [12, 10, 11, 10, 10], [1, 2, 3, 4, 5, 6, 0])
  {
    var st := Progress([false, true, true, true, true, true, true], [12, 9, 11, 9, 9], [1, 2, 3, 4, 5, 6]);
    Tighter2Step0();
    assert PassTo(Need, Allocation, st, 1) == Progress([true, true, true, true, true, true, true], [12, 10, 11, 10, 10], [1, 2, 3, 4, 5, 6, 0]);
    Tighter2Step1();
    assert PassTo(Need, Allocation, st, 2) == Progress([true, true, true, true, true, true, true], [12, 10, 11, 10, 10], [1, 2, 3, 4, 5, 6, 0]);
    Tighter2Step2();
    assert PassTo(Need, Allocation, st, 3) == Progress([true, true, true, true, true, true, true], [12, 10, 11, 10, 10], [1, 2, 3, 4, 5, 6, 0]);
    Tighter2Step3();
    assert PassTo(Need, Allocation, st, 4) == Progress([true, true, true, true, true, true, true], [12, 10, 11, 10, 10], [1, 2, 3, 4, 5, 6, 0]);
    Tighter2Step4();
    assert PassTo(Need, Allocation, st, 5) == Progress([true, true, true, true, true, true, true], [12, 10, 11, 10, 10], [1, 2, 3, 4, 5, 6, 0]);
    Tighter2Step5();
    assert PassTo(Need, Allocation, st, 6) == Progress([true, true, true, true, true, true, true], [12, 10, 11, 10, 10], [1, 2, 3, 4, 5, 6, 0]);
    Tighter2Step6();
    assert PassTo(Need, Allocation, st, 7) == Progress([true, true, true, true, true, true, true], [12, 10, 11, 10, 10], [1, 2, 3, 4, 5, 6, 0]);
  }

  lemma Scarce1Step0()
    ensures Shaped(Need, Allocation, Progress([false, false, false, false, false, false, false], [6, 5, 2, 3, 2], []))
    ensures Step(Need, Allocation, Progress([false, false, false, false, false, false, false], [6, 5, 2, 3, 2], []), 0) == Progress([false, false, false, false, false, false, false], [6, 5, 2, 3, 2], [])
  {
    assert !Covers([6, 5, 2, 3, 2], Need[0]) by { assert Need[0][2] == 5; }
  }

  lemma Scarce1Step1()
    ensures Shaped(Need, Allocation, Progress([false, false, false, false, false, false, false], [6, 5, 2, 3, 2], []))
    ensures Step(Need, Allocation, Progress([false, false, false, false, false, false, false], [6, 5, 2, 3, 2], []), 1) == Progress([false, true, false, false, false, false, false], [7, 5, 2, 3, 3], [1])
  {
  }

  lemma Scarce1Step2()
    ensures Shaped(Need, Allocation, Progress([false, true, false, false, false, false, false], [7, 5, 2, 3, 3], [1]))
    ensures Step(Need, Allocation, Progress([false, true, false, false, false, false, false], [7, 5, 2, 3, 3], [1]), 2) == Progress([false, true, false, false, false, false, false], [7, 5, 2, 3, 3], [1])
  {
    assert !Covers([7, 5, 2, 3, 3], Need[2]) by { assert Need[2][2] == 4; }
  }

  lemma Scarce1Step3()
    ensures Shaped(Need, Allocation, Progress([false, true, false, false, false, false, false], [7, 5, 2, 3, 3], [1]))
    ensures Step(Need, Allocation, Progress([false, true, false, false, false, false, false], [7, 5, 2, 3, 3], [1]), 3) == Progress([false, true, false, false, false, false, false], [7, 5, 2, 3, 3], [1])
  {
    assert !Covers([7, 5, 2, 3, 3], Need[3]) by { assert Need[3][2] == 3; }
  }

  lemma Scarce1Step4()
    ensures Shaped(Need, Allocation, Progress([false, true, false, false, false, false, false], [7, 5, 2, 3, 3], [1]))
    ensures Step(Need, Allocation, Progress([false, true, false, false, false, false, false], [7, 5, 2, 3, 3], [1]), 4) == Progress([false, true, false, false, false, false, false], [7, 5, 2, 3, 3], [1])
  {
    assert !Covers([7, 5, 2, 3, 3], Need[4]) by { assert Need[4][2] == 3; }
  }

  lemma Scarce1Step5()
    ensures Shaped(Need, Allocation, Progress([false, true, false, false, false, false, false], [7, 5, 2, 3, 3], [1]))
    ensures Step(Need, Allocation, Progress([false, true, false, false, false, false, false], [7, 5, 2, 3, 3], [1]), 5) == Progress([false, true, false, false, false, false, false], [7, 5, 2, 3, 3], [1])
  {
    assert !Covers([7, 5, 2, 3, 3], Need[5]) by { assert Need[5][2] == 5; }
  }

  lemma Scarce1Step6()
    ensures Shaped(Need, Allocation, Progress([false, true, false, false, false, false, false], [7, 5, 2, 3, 3], [1]))
    ensures Step(Need, Allocation, Progress([false, true, false, false, false, false, false], [7, 5, 2, 3, 3], [1]), 6) == Progress([false, true, false, false, false, false, true], [8, 7, 3, 4, 3], [1, 6])
  {
  }

  lemma ScarcePass1()
    ensures var st := Progress([false, false, false, false, false, false, false], [6, 5, 2, 3, 2], []);
      Shaped(Need, Allocation, st) && Pass(Need, Allocation, st) == Progress([false, true, false, false, false, false, true], [8, 7, 3, 4, 3], [1, 6])
  {
    var st := Progress([false, false, false, false, false, false, false], [6, 5, 2, 3, 2], []);
    Scarce1Step0();
    assert PassTo(Need, Allocation, st, 1) == Progress([false, false, false, false, false, false, false], [6, 5, 2, 3, 2], []);
    Scarce1Step1();
    assert PassTo(Need, Allocation, st, 2) == Progress([false, true, false, false, false, false, false], [7, 5, 2, 3, 3], [1]);
    Scarce1Step2();
    assert PassTo(Need, Allocation, st, 3) == Progress([false, true, false, false, false, false, false], [7, 5, 2, 3, 3], [1]);
    Scarce1Step3();
    assert PassTo(Need, Allocation, st, 4) == Progress([false, true, false, false, false, false, false], [7, 5, 2, 3, 3], [1]);
    Scarce1Step4();
    assert PassTo(Need, Allocation, st, 5) == Progress([false, true, false, false, false, false, false], [7, 5, 2, 3, 3], [1]);
    Scarce1Step5();
    assert PassTo(Need, Allocation, st, 6) == Progress([false, true, false, false, false, false, false], [7, 5, 2, 3, 3], [1]);
    Scarce1Step6();
    assert PassTo(Need, Allocation, st, 7) == Progress([false, true, false, false, false, false, true], [8, 7, 3, 4, 3], [1, 6]);
  }

  lemma Scarce2Step0()
    ensures Shaped(Need, Allocation, Progress([false, true, false, false, false, false, true], [8, 7, 3, 4, 3], [1, 6]))
    ensures Step(Need, Allocation, Progress([false, true, false, false, false, false, true], [8, 7, 3, 4, 3], [1, 6]), 0) == Progress([false, true, false, false, false, false, true], [8, 7, 3, 4, 3], [1, 6])
  {
    assert !Covers([8, 7, 3, 4, 3], Need[0]) by { assert Need[0][2] == 5; }
  }

  lemma Scarce2Step1()
    ensures Shaped(Need, Allocation, Progress([false, true, false, false, false, false, true], [8, 7, 3, 4, 3], [1, 6]))
    ensures Step(Need, Allocation, Progress([false, true, false, false, false, false, true], [8, 7, 3, 4, 3], [1, 6]), 1) == Progress([false, true, false, false, false, false, true], [8, 7, 3, 4, 3], [1, 6])
  {
  }

  lemma Scarce2Step2()
    ensures Shaped(Need, Allocation, Progress([false, true, false, false, false, false, true], [8, 7, 3, 4, 3], [1, 6]))
    ensures Step(Need, Allocation, Progress([false, true, false, false, false, false, true], [8, 7, 3, 4, 3], [1, 6]), 2) == Progress([false, true, false, false, false, false, true], [8, 7, 3, 4, 3], [1, 6])
  {
    assert !Covers([8, 7, 3, 4, 3], Need[2]) by { assert Need[2][2] == 4; }
  }

  lemma Scarce2Step3()
    ensures Shaped(Need, Allocation, Progress([false, true, false, false, false, false, true], [8, 7, 3, 4, 3], [1, 6]))
    ensures Step(Need, Allocation, Progress([false, true, false, false, false, false, true], [8, 7, 3, 4, 3], [1, 6]), 3) == Progress([false, true, false, false, false, false, true], [8, 7, 3, 4, 3], [1, 6])
  {
    assert !Covers([8, 7, 3, 4, 3], Need[3]) by { assert Need[3][4] == 4; }
  }

  lemma Scarce2Step4()
    ensures Shaped(Need, Allocation, Progress([false, true, false, false, false, false, true], [8, 7, 3, 4, 3], [1, 6]))
    ensures Step(Need, Allocation, Progress([false, true, false, false, false, false, true], [8, 7, 3, 4, 3], [1, 6]), 4) == Progress([false, true, false, false, false, false, true], [8, 7, 3, 4, 3], [1, 6])
  {
    assert !Covers([8, 7, 3, 4, 3], Need[4]) by { assert Need[4][3] == 5; }
  }

  lemma Scarce2Step5()
    ensures Shaped(Need, Allocation, Progress([false, true, false, false, false, false, true], [8, 7, 3, 4, 3], [1, 6]))
    ensures Step(Need, Allocation, Progress([false, true, false, false, false, false, true], [8, 7, 3, 4, 3], [1, 6]), 5) == Progress([false, true, false, false, false, false, true], [8, 7, 3, 4, 3], [1, 6])
  {
    assert !Covers([8, 7, 3, 4, 3], Need[5]) by { assert Need[5][2] == 5; }
  }

  lemma Scarce2Step6()
    ensures Shaped(Need, Allocation, Progress([false, true, false, false, false, false, true], [8, 7, 3, 4, 3], [1, 6]))
    ensures Step(Need, Allocation, Progress([false, true, false, false, false, false, true], [8, 7, 3, 4, 3], [1, 6]), 6) == Progress([false, true, false, false, false, false, true], [8, 7, 3, 4, 3], [1, 6])
  {
  }

  lemma ScarcePass2()
    ensures var st := Progress([false, true, false, false, false, false, true], [8, 7, 3, 4, 3], [1, 6]);
      Shaped(Need, Allocation, st) && Pass(Need, Allocation, st) == Progress([false, true, false, false, false, false, true], [8, 7, 3, 4, 3], [1, 6])
  {
    var st := Progress([false, true, false, false, false, false, true], [8, 7, 3, 4, 3], [1, 6]);
    Scarce2Step0();
    assert PassTo(Need, Allocation, st, 1) == Progress([false, true, false, false, false, false, true], [8, 7, 3, 4, 3], [1, 6]);
    Scarce2Step1();
    assert PassTo(Need, Allocation, st, 2) == Progress([false, true, false, false, false, false, true], [8, 7, 3, 4, 3], [1, 6]);
    Scarce2Step2();
    assert PassTo(Need, Allocation, st, 3) == Progress([false, true, false, false, false, false, true], [8, 7, 3, 4, 3], [1, 6]);
    Scarce2Step3();
    assert PassTo(Need, Allocation, st, 4) == Progress([false, true, false, false, false, false, true], [8, 7, 3, 4, 3], [1, 6]);
    Scarce2Step4();
    assert PassTo(Need, Allocation, st, 5) == Progress([false, true, false, false, false, false, true], [8, 7, 3, 4, 3], [1, 6]);
    Scarce2Step5();
    assert PassTo(Need, Allocation, st, 6) == Progress([false, true, false, false, false, false, true], [8, 7, 3, 4, 3], [1, 6]);
    Scarce2Step6();
    assert PassTo(Need, Allocation, st, 7) == Progress([false, true, false, false, false, false, true], [8, 7, 3, 4, 3], [1, 6]);
  }

  /** With every kind at 6 the processes finish in index order, in one pass. */
  lemma AmplePoolIsSafe()
    ensures Input(Maximum, Allocation, [6, 6, 6, 6, 6])
    ensures Check(Maximum, Allocation, [6, 6, 6, 6, 6]).order == [0, 1, 2, 3, 4, 5, 6]
    ensures Check(Maximum, Allocation, [6, 6, 6, 6, 6]).pool == [12, 11, 12, 11, 11]
    ensures Safe(Maximum, Allocation, [6, 6, 6, 6, 6])
  {
    NeedOfDemo();
    assert Start(7, [6, 6, 6, 6, 6]) == Progress([false, false, false, false, false, false, false], [6, 6, 6, 6, 6], []);
    AmplePass1();
    assert Run(Need, Allocation, Progress([false, false, false, false, false, false, false], [6, 6, 6, 6, 6], [])) == Progress([true, true, true, true, true, true, true], [12, 11, 12, 11, 11], [0, 1, 2, 3, 4, 5, 6]);
  }

  /** With one unit less of kinds 1 to 4, process 0 must wait for the others. */
  lemma TighterPoolIsSafe()
    ensures Input(Maximum, Allocation, [6, 5, 5, 5, 5])
    ensures Check(Maximum, Allocation, [6, 5, 5, 5, 5]).order == [1, 2, 3, 4, 5, 6, 0]
    ensures Safe(Maximum, Allocation, [6, 5, 5, 5, 5])
  {
    NeedOfDemo();
    assert Start(7, [6, 5, 5, 5, 5]) == Progress([false, false, false, false, false, false, false], [6, 5, 5, 5, 5], []);
    TighterPass1();
    TighterPass2();
    assert Run(Need, Allocation, Progress([false, true, true, true, true, true, true], [12, 9, 11, 9, 9], [1, 2, 3, 4, 5, 6])) == Progress([true, true, true, true, true, true, true], [12, 10, 11, 10, 10], [1, 2, 3, 4, 5, 6, 0]);
    assert Run(Need, Allocation, Progress([false, false, false, false, false, false, false], [6, 5, 5, 5, 5], [])) == Progress([true, true, true, true, true, true, true], [12, 10, 11, 10, 10], [1, 2, 3, 4, 5, 6, 0]);
  }

  /** With the pool [6, 5, 2, 3, 2] only processes 1 and 6 can finish. */
  lemma ScarcePoolIsUnsafe()
    ensures Input(Maximum, Allocation, [6, 5, 2, 3, 2])
    ensures Check(Maximum, Allocation, [6, 5, 2, 3, 2]).order == [1, 6]
    ensures !Safe(Maximum, Allocation, [6, 5, 2, 3, 2])
  {
    NeedOfDemo();
    assert Start(7, [6, 5, 2, 3, 2]) == Progress([false, false, false, false, false, false, false], [6, 5, 2, 3, 2], []);
    ScarcePass1();
    ScarcePass2();
    assert Run(Need, Allocation, Progress([false, true, false, false, false, false, true], [8, 7, 3, 4, 3], [1, 6])) == Progress([false, true, false, false, false, false, true], [8, 7, 3, 4, 3], [1, 6]);
    assert Run(Need, Allocation, Progress([false, false, false, false, false, false, false], [6, 5, 2, 3, 2], [])) == Progress([false, true, false, false, false, false, true], [8, 7, 3, 4, 3], [1, 6]);
  }
}
