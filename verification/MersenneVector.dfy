/** The generator against the published one: the first outputs of mt19937_64 for its default seed 5489, section
    26.5.5 of ISO/IEC 14882:2011, and which bits of its state a term depends on. */
module MersenneVector {
  import opened MersenneTwister

  const DEFAULT_SEED: Word := 5489

  lemma SmallIsItself(n: nat)
    requires n < STATE_SIZE
    ensures n % 0x1_0000_0000_0000_0000 == n
  {
  }

  lemma CountAsWord(c: Word, n: nat, m: nat)
    requires m == n % 0x1_0000_0000_0000_0000 && m == c as nat
    ensures Counter(n) == c
  {
    SmallAsWord(c, n % 0x1_0000_0000_0000_0000);
  }

  lemma SeedStepIs(previous: Word, n: nat, c: Word, w: Word)
    requires Counter(n) == c && Scrambled(previous) == w
    ensures SeedStep(previous, n) == Add(w, c)
  {
  }

  lemma Stepped(seed: Word, n: nat, previous: Word, w: Word)
    requires 0 < n < STATE_SIZE && X(seed, n - 1) == previous && SeedStep(previous, n) == w
    ensures X(seed, n) == w
  {
  }

  // One step of seeding, from a term to the next; c is its number as a word.
  lemma SeedTerm(seed: Word, n: nat, c: Word, previous: Word, product: Word, w: Word)
    requires 0 < n < STATE_SIZE && c as nat == n && X(seed, n - 1) == previous
    requires Scrambled(previous) == product && Add(product, c) == w
    ensures X(seed, n) == w
  {
    SmallIsItself(n);
    CountAsWord(c, n, n);
    SeedStepIs(previous, n, c, product);
    Stepped(seed, n, previous, w);
  }

  lemma Terms12(seed: Word)
    requires X(seed, 0) == 5489
    ensures X(seed, 12) == 18036750184230437171 && X(seed, 1) == 13057201162865595358 && X(seed, 2) == 10476979627314799022 && X(seed, 3) == 15076282145854160703
  {
    SeedTerm(seed, 1, 1, 5489, 13057201162865595357, 13057201162865595358);
    SeedTerm(seed, 2, 2, 13057201162865595358, 10476979627314799020, 10476979627314799022);
    SeedTerm(seed, 3, 3, 10476979627314799022, 15076282145854160700, 15076282145854160703);
    SeedTerm(seed, 4, 4, 15076282145854160703, 4028258760921719180, 4028258760921719184);
    SeedTerm(seed, 5, 5, 4028258760921719184, 16400131027729929808, 16400131027729929813);
    SeedTerm(seed, 6, 6, 16400131027729929813, 681049467949274910, 681049467949274916);
    SeedTerm(seed, 7, 7, 681049467949274916, 1166424544479915348, 1166424544479915355);
    SeedTerm(seed, 8, 8, 1166424544479915355, 12669671669325274623, 12669671669325274631);
    SeedTerm(seed, 9, 9, 12669671669325274631, 3923681680445358561, 3923681680445358570);
    SeedTerm(seed, 10, 10, 3923681680445358570, 10843524099671305250, 10843524099671305260);
    SeedTerm(seed, 11, 11, 10843524099671305260, 9320087349666649622, 9320087349666649633);
    SeedTerm(seed, 12, 12, 9320087349666649633, 18036750184230437159, 18036750184230437171);
  }

  lemma Terms24(seed: Word)
    requires X(seed, 12) == 18036750184230437171
    ensures X(seed, 24) == 11853308388629125482
  {
    SeedTerm(seed, 13, 13, 18036750184230437171, 15162073532206564720, 15162073532206564733);
    SeedTerm(seed, 14, 14, 15162073532206564733, 6406996757156837670, 6406996757156837684);
    SeedTerm(seed, 15, 15, 6406996757156837684, 8927855092125653329, 8927855092125653344);
    SeedTerm(seed, 16, 16, 8927855092125653344, 7287101680298317069, 7287101680298317085);
    SeedTerm(seed, 17, 17, 7287101680298317085, 14285962336228661740, 14285962336228661757);
    SeedTerm(seed, 18, 18, 14285962336228661757, 16767098162355983270, 16767098162355983288);
    SeedTerm(seed, 19, 19, 16767098162355983288, 3083970833968823519, 3083970833968823538);
    SeedTerm(seed, 20, 20, 3083970833968823538, 16292429955202811018, 16292429955202811038);
    SeedTerm(seed, 21, 21, 16292429955202811038, 2462140788281684633, 2462140788281684654);
    SeedTerm(seed, 22, 22, 2462140788281684654, 14987206012938009238, 14987206012938009260);
    SeedTerm(seed, 23, 23, 14987206012938009260, 1755961132248244675, 1755961132248244698);
    SeedTerm(seed, 24, 24, 1755961132248244698, 11853308388629125458, 11853308388629125482);
  }

  lemma Terms36(seed: Word)
    requires X(seed, 24) == 11853308388629125482
    ensures X(seed, 36) == 258211445411067868
  {
    SeedTerm(seed, 25, 25, 11853308388629125482, 15567715879394119496, 15567715879394119521);
    SeedTerm(seed, 26, 26, 15567715879394119521, 12922380697022943802, 12922380697022943828);
    SeedTerm(seed, 27, 27, 12922380697022943828, 10568493380422968094, 10568493380422968121);
    SeedTerm(seed, 28, 28, 10568493380422968121, 6468114481096881759, 6468114481096881787);
    SeedTerm(seed, 29, 29, 6468114481096881787, 6912714088192792946, 6912714088192792975);
    SeedTerm(seed, 30, 30, 6912714088192792975, 11676810063224680438, 11676810063224680468);
    SeedTerm(seed, 31, 31, 11676810063224680468, 7989628851951361502, 7989628851951361533);
    SeedTerm(seed, 32, 32, 7989628851951361533, 9980521080467753292, 9980521080467753324);
    SeedTerm(seed, 33, 33, 9980521080467753324, 11628798235400288854, 11628798235400288887);
    SeedTerm(seed, 34, 34, 11628798235400288887, 3042835494701912465, 3042835494701912499);
    SeedTerm(seed, 35, 35, 3042835494701912499, 10149139922063010167, 10149139922063010202);
    SeedTerm(seed, 36, 36, 10149139922063010202, 258211445411067832, 258211445411067868);
  }

  lemma Terms48(seed: Word)
    requires X(seed, 36) == 258211445411067868
    ensures X(seed, 48) == 213769070704315526
  {
    SeedTerm(seed, 37, 37, 258211445411067868, 12292608484108957100, 12292608484108957137);
    SeedTerm(seed, 38, 38, 12292608484108957137, 5167437948048335639, 5167437948048335677);
    SeedTerm(seed, 39, 39, 5167437948048335677, 11526653342107776396, 11526653342107776435);
    SeedTerm(seed, 40, 40, 11526653342107776435, 9186605994989076253, 9186605994989076293);
    SeedTerm(seed, 41, 41, 9186605994989076293, 4106436007230823156, 4106436007230823197);
    SeedTerm(seed, 42, 42, 4106436007230823197, 1482400223179564825, 1482400223179564867);
    SeedTerm(seed, 43, 43, 1482400223179564867, 18329651462931014599, 18329651462931014642);
    SeedTerm(seed, 44, 44, 18329651462931014642, 12828698185960104029, 12828698185960104073);
    SeedTerm(seed, 45, 45, 12828698185960104073, 9435381729478913391, 9435381729478913436);
    SeedTerm(seed, 46, 46, 9435381729478913436, 10988179007923054278, 10988179007923054324);
    SeedTerm(seed, 47, 47, 10988179007923054324, 16279301207772373822, 16279301207772373869);
    SeedTerm(seed, 48, 48, 16279301207772373869, 213769070704315478, 213769070704315526);
  }

  lemma Terms60(seed: Word)
    requires X(seed, 48) == 213769070704315526
    ensures X(seed, 60) == 4481774452245242266
  {
    SeedTerm(seed, 49, 49, 213769070704315526, 2960748844084063630, 2960748844084063679);
    SeedTerm(seed, 50, 50, 2960748844084063679, 10067976150718286739, 10067976150718286789);
    SeedTerm(seed, 51, 51, 10067976150718286789, 9138367034755369723, 9138367034755369774);
    SeedTerm(seed, 52, 52, 9138367034755369774, 13806268603918059587, 13806268603918059639);
    SeedTerm(seed, 53, 53, 13806268603918059639, 1680185388186896273, 1680185388186896326);
    SeedTerm(seed, 54, 54, 1680185388186896326, 10291061633078204366, 10291061633078204420);
    SeedTerm(seed, 55, 55, 10291061633078204420, 14465151537550734094, 14465151537550734149);
    SeedTerm(seed, 56, 56, 14465151537550734149, 15488623881140223310, 15488623881140223366);
    SeedTerm(seed, 57, 57, 15488623881140223366, 3741484074564668257, 3741484074564668314);
    SeedTerm(seed, 58, 58, 3741484074564668314, 1918677755306815506, 1918677755306815564);
    SeedTerm(seed, 59, 59, 1918677755306815564, 7317293401479426396, 7317293401479426455);
    SeedTerm(seed, 60, 60, 7317293401479426455, 4481774452245242206, 4481774452245242266);
  }

  lemma Terms72(seed: Word)
    requires X(seed, 60) == 4481774452245242266
    ensures X(seed, 72) == 7594476051345711944
  {
    SeedTerm(seed, 61, 61, 4481774452245242266, 13177439052661313042, 13177439052661313103);
    SeedTerm(seed, 62, 62, 13177439052661313103, 14190197572724422281, 14190197572724422343);
    SeedTerm(seed, 63, 63, 14190197572724422343, 11391962132027874420, 11391962132027874483);
    SeedTerm(seed, 64, 64, 11391962132027874483, 14461854875984255517, 14461854875984255581);
    SeedTerm(seed, 65, 65, 14461854875984255581, 78864998355633286, 78864998355633351);
    SeedTerm(seed, 66, 66, 78864998355633351, 13375647221931413499, 13375647221931413565);
    SeedTerm(seed, 67, 67, 13375647221931413565, 13091373515385904147, 13091373515385904214);
    SeedTerm(seed, 68, 68, 13091373515385904214, 6049165922138400452, 6049165922138400520);
    SeedTerm(seed, 69, 69, 6049165922138400520, 11416142809731847061, 11416142809731847130);
    SeedTerm(seed, 70, 70, 11416142809731847130, 18197073924412990712, 18197073924412990782);
    SeedTerm(seed, 71, 71, 18197073924412990782, 829354708239552185, 829354708239552256);
    SeedTerm(seed, 72, 72, 829354708239552256, 7594476051345711872, 7594476051345711944);
  }

  lemma Terms84(seed: Word)
    requires X(seed, 72) == 7594476051345711944
    ensures X(seed, 84) == 14612290868631353049
  {
    SeedTerm(seed, 73, 73, 7594476051345711944, 10772269459197422293, 10772269459197422366);
    SeedTerm(seed, 74, 74, 10772269459197422366, 9316238444709656556, 9316238444709656630);
    SeedTerm(seed, 75, 75, 9316238444709656630, 820820292010192164, 820820292010192239);
    SeedTerm(seed, 76, 76, 820820292010192239, 10370107716384591235, 10370107716384591311);
    SeedTerm(seed, 77, 77, 10370107716384591311, 8321593491012460553, 8321593491012460630);
    SeedTerm(seed, 78, 78, 8321593491012460630, 9226632414975219787, 9226632414975219865);
    SeedTerm(seed, 79, 79, 9226632414975219865, 1121855342335555647, 1121855342335555726);
    SeedTerm(seed, 80, 80, 1121855342335555726, 2523212579397444342, 2523212579397444422);
    SeedTerm(seed, 81, 81, 2523212579397444422, 15150453816516406606, 15150453816516406687);
    SeedTerm(seed, 82, 82, 15150453816516406687, 4357348246254069868, 4357348246254069950);
    SeedTerm(seed, 83, 83, 4357348246254069950, 1475811360713763686, 1475811360713763769);
    SeedTerm(seed, 84, 84, 1475811360713763769, 14612290868631352965, 14612290868631353049);
  }

  lemma Terms96(seed: Word)
    requires X(seed, 84) == 14612290868631353049
    ensures X(seed, 96) == 1855653125818638627
  {
    SeedTerm(seed, 85, 85, 14612290868631353049, 13002835200640305746, 13002835200640305831);
    SeedTerm(seed, 86, 86, 13002835200640305831, 8841644283678816769, 8841644283678816855);
    SeedTerm(seed, 87, 87, 8841644283678816855, 9422668006636366622, 9422668006636366709);
    SeedTerm(seed, 88, 88, 9422668006636366709, 9762262470164229355, 9762262470164229443);
    SeedTerm(seed, 89, 89, 9762262470164229443, 15759907042128835437, 15759907042128835526);
    SeedTerm(seed, 90, 90, 15759907042128835526, 5472764997485778081, 5472764997485778171);
    SeedTerm(seed, 91, 91, 5472764997485778171, 7662827925729932786, 7662827925729932877);
    SeedTerm(seed, 92, 92, 7662827925729932877, 17501417670658457436, 17501417670658457528);
    SeedTerm(seed, 93, 93, 17501417670658457528, 3930325588003666143, 3930325588003666236);
    SeedTerm(seed, 94, 94, 3930325588003666236, 5474808447603626892, 5474808447603626986);
    SeedTerm(seed, 95, 95, 5474808447603626986, 6720003803709822287, 6720003803709822382);
    SeedTerm(seed, 96, 96, 6720003803709822382, 1855653125818638531, 1855653125818638627);
  }

  lemma Terms108(seed: Word)
    requires X(seed, 96) == 1855653125818638627
    ensures X(seed, 108) == 1242013424098797151
  {
    SeedTerm(seed, 97, 97, 1855653125818638627, 17923060195536629799, 17923060195536629896);
    SeedTerm(seed, 98, 98, 17923060195536629896, 1006421872699161967, 1006421872699162065);
    SeedTerm(seed, 99, 99, 1006421872699162065, 8593337867538992317, 8593337867538992416);
    SeedTerm(seed, 100, 100, 8593337867538992416, 4799988366622961101, 4799988366622961201);
    SeedTerm(seed, 101, 101, 4799988366622961201, 13724225912419217008, 13724225912419217109);
    SeedTerm(seed, 102, 102, 13724225912419217109, 11153468036382729419, 11153468036382729521);
    SeedTerm(seed, 103, 103, 11153468036382729521, 3227521569234212599, 3227521569234212702);
    SeedTerm(seed, 104, 104, 3227521569234212702, 14253271084513918342, 14253271084513918446);
    SeedTerm(seed, 105, 105, 14253271084513918446, 12720552637491819945, 12720552637491820050);
    SeedTerm(seed, 106, 106, 12720552637491820050, 3131078640163418320, 3131078640163418426);
    SeedTerm(seed, 107, 107, 3131078640163418426, 13204035025191316786, 13204035025191316893);
    SeedTerm(seed, 108, 108, 13204035025191316893, 1242013424098797043, 1242013424098797151);
  }

  lemma Terms120(seed: Word)
    requires X(seed, 108) == 1242013424098797151
    ensures X(seed, 120) == 10024792545775434147
  {
    SeedTerm(seed, 109, 109, 1242013424098797151, 10309732291143311283, 10309732291143311392);
    SeedTerm(seed, 110, 110, 10309732291143311392, 14812467554029601786, 14812467554029601896);
    SeedTerm(seed, 111, 111, 14812467554029601896, 6588807180369779663, 6588807180369779774);
    SeedTerm(seed, 112, 112, 6588807180369779774, 15873501535677970451, 15873501535677970563);
    SeedTerm(seed, 113, 113, 15873501535677970563, 11172284785033358976, 11172284785033359089);
    SeedTerm(seed, 114, 114, 11172284785033359089, 12301618027847470519, 12301618027847470633);
    SeedTerm(seed, 115, 115, 12301618027847470633, 11068608208873034383, 11068608208873034498);
    SeedTerm(seed, 116, 116, 11068608208873034498, 11428326129399486208, 11428326129399486324);
    SeedTerm(seed, 117, 117, 11428326129399486324, 5094087545013561790, 5094087545013561907);
    SeedTerm(seed, 118, 118, 5094087545013561907, 500288200114796746, 500288200114796864);
    SeedTerm(seed, 119, 119, 500288200114796864, 2634392864069587008, 2634392864069587127);
    SeedTerm(seed, 120, 120, 2634392864069587127, 10024792545775434027, 10024792545775434147);
  }

  lemma Terms132(seed: Word)
    requires X(seed, 120) == 10024792545775434147
    ensures X(seed, 132) == 11347072173565906066
  {
    SeedTerm(seed, 121, 121, 10024792545775434147, 10356221529759776845, 10356221529759776966);
    SeedTerm(seed, 122, 122, 10356221529759776966, 11136380342514802292, 11136380342514802414);
    SeedTerm(seed, 123, 123, 11136380342514802414, 340782545860182908, 340782545860183031);
    SeedTerm(seed, 124, 124, 340782545860183031, 7508198866667469675, 7508198866667469799);
    SeedTerm(seed, 125, 125, 7508198866667469799, 7289875136835936622, 7289875136835936747);
    SeedTerm(seed, 126, 126, 7289875136835936747, 17690097813874199586, 17690097813874199712);
    SeedTerm(seed, 127, 127, 17690097813874199712, 2626238110689777063, 2626238110689777190);
    SeedTerm(seed, 128, 128, 2626238110689777190, 16717695660713672366, 16717695660713672494);
    SeedTerm(seed, 129, 129, 16717695660713672494, 3595834123325255145, 3595834123325255274);
    SeedTerm(seed, 130, 130, 3595834123325255274, 6135238878624366242, 6135238878624366372);
    SeedTerm(seed, 131, 131, 6135238878624366372, 9938504311934907521, 9938504311934907652);
    SeedTerm(seed, 132, 132, 9938504311934907652, 11347072173565905934, 11347072173565906066);
  }

  lemma Terms144(seed: Word)
    requires X(seed, 132) == 11347072173565906066
    ensures X(seed, 144) == 13733309948923027732
  {
    SeedTerm(seed, 133, 133, 11347072173565906066, 9372835856550536528, 9372835856550536661);
    SeedTerm(seed, 134, 134, 9372835856550536661, 2901728271276724171, 2901728271276724305);
    SeedTerm(seed, 135, 135, 2901728271276724305, 9858149244111899965, 9858149244111900100);
    SeedTerm(seed, 136, 136, 9858149244111900100, 16544617798517122510, 16544617798517122646);
    SeedTerm(seed, 137, 137, 16544617798517122646, 11622889926249457649, 11622889926249457786);
    SeedTerm(seed, 138, 138, 11622889926249457786, 9979924837559772440, 9979924837559772578);
    SeedTerm(seed, 139, 139, 9979924837559772578, 14196945190861012256, 14196945190861012395);
    SeedTerm(seed, 140, 140, 14196945190861012395, 2223272152803307144, 2223272152803307284);
    SeedTerm(seed, 141, 141, 2223272152803307284, 5190516807419032196, 5190516807419032337);
    SeedTerm(seed, 142, 142, 5190516807419032337, 3235768569839659472, 3235768569839659614);
    SeedTerm(seed, 143, 143, 3235768569839659614, 7682633656132342918, 7682633656132343061);
    SeedTerm(seed, 144, 144, 7682633656132343061, 13733309948923027588, 13733309948923027732);
  }

  lemma Terms156(seed: Word)
    requires X(seed, 144) == 13733309948923027732
    ensures X(seed, 156) == 2619718836853156863
  {
    SeedTerm(seed, 145, 145, 13733309948923027732, 16911272487285603038, 16911272487285603183);
    SeedTerm(seed, 146, 146, 16911272487285603183, 16702635121049437692, 16702635121049437838);
    SeedTerm(seed, 147, 147, 16702635121049437838, 6161415984776321481, 6161415984776321628);
    SeedTerm(seed, 148, 148, 6161415984776321628, 12717629078983492953, 12717629078983493101);
    SeedTerm(seed, 149, 149, 12717629078983493101, 2358424909955324931, 2358424909955325080);
    SeedTerm(seed, 150, 150, 2358424909955325080, 12297813174132616888, 12297813174132617038);
    SeedTerm(seed, 151, 151, 12297813174132617038, 9911119942162973788, 9911119942162973939);
    SeedTerm(seed, 152, 152, 9911119942162973939, 14656296979938372957, 14656296979938373109);
    SeedTerm(seed, 153, 153, 14656296979938373109, 5179190586448371262, 5179190586448371415);
    SeedTerm(seed, 154, 154, 5179190586448371415, 11090893096306857374, 11090893096306857528);
    SeedTerm(seed, 155, 155, 11090893096306857528, 11656051587341970994, 11656051587341971149);
    SeedTerm(seed, 156, 156, 11656051587341971149, 2619718836853156707, 2619718836853156863);
  }

  lemma Terms158(seed: Word)
    requires X(seed, 156) == 2619718836853156863
    ensures X(seed, 158) == 1643007456521706830 && X(seed, 157) == 167424595420134768
  {
    SeedTerm(seed, 157, 157, 2619718836853156863, 167424595420134611, 167424595420134768);
    SeedTerm(seed, 158, 158, 167424595420134768, 1643007456521706672, 1643007456521706830);
  }
  lemma TermIs<W>(first: W, step: (W, nat) -> W, next: (W, W, W) -> W, n: nat)
    requires STATE_SIZE <= n
    ensures Term(first, step, next, n) ==
      next(Term(first, step, next, n - 156), Term(first, step, next, n - 312), Term(first, step, next, n - 311))
  {
  }

  lemma NextIs(middle: Word, high: Word, low: Word)
    ensures Next(middle, high, low) == NextTerm(middle, high, low)
  {
  }

  // A term past the first block, from those it is made of.
  lemma TwistTerm(seed: Word, n: nat, middle: Word, high: Word, low: Word, w: Word)
    requires STATE_SIZE <= n && X(seed, n - 156) == middle && X(seed, n - 312) == high && X(seed, n - 311) == low
    requires NextTerm(middle, high, low) == w
    ensures X(seed, n) == w
  {
    TermIs(seed, Step, Next, n);
    NextIs(middle, high, low);
  }

  lemma SeededTerms(seed: Word)
    requires seed == DEFAULT_SEED
    ensures X(seed, 0) == 5489 && X(seed, 1) == 13057201162865595358 && X(seed, 2) == 10476979627314799022 && X(seed, 3) == 15076282145854160703
    ensures X(seed, 156) == 2619718836853156863 && X(seed, 157) == 167424595420134768 && X(seed, 158) == 1643007456521706830
  {
    assert X(seed, 0) == seed;
    Terms12(seed);
    Terms24(seed);
    Terms36(seed);
    Terms48(seed);
    Terms60(seed);
    Terms72(seed);
    Terms84(seed);
    Terms96(seed);
    Terms108(seed);
    Terms120(seed);
    Terms132(seed);
    Terms144(seed);
    Terms156(seed);
    Terms158(seed);
  }

  /** The first three outputs for the default seed are those of the published generator. */
  lemma FirstOutputsArePublished(seed: Word)
    requires seed == DEFAULT_SEED
    ensures Temper(X(seed, STATE_SIZE)) == 14514284786278117030
    ensures Temper(X(seed, STATE_SIZE + 1)) == 4620546740167642908
    ensures Temper(X(seed, STATE_SIZE + 2)) == 13109570281517897720
  {
    SeededTerms(seed);
    TwistTerm(seed, 312, 2619718836853156863, 5489, 13057201162865595358, 2619718836730839568);
    TwistTerm(seed, 313, 167424595420134768, 13057201162865595358, 10476979627314799022, 6397627616356142503);
    TwistTerm(seed, 314, 1643007456521706830, 10476979627314799022, 15076282145854160703, 16968885487936011064);
  }

  lemma JoinedDependsOn(high: Word, low: Word, high2: Word, low2: Word)
    requires high >> 31 == high2 >> 31 && low << 33 == low2 << 33
    ensures Joined(high, low) == Joined(high2, low2)
  {
  }

  lemma JoinedTellsApart(high: Word, low: Word, high2: Word, low2: Word)
    requires Joined(high, low) == Joined(high2, low2)
    ensures high >> 31 == high2 >> 31 && low << 33 == low2 << 33
  {
  }

  lemma TurnedTellsApart(x: Word, y: Word)
    requires Turned(x) == Turned(y)
    ensures x == y
  {
  }

  /** A term depends on the word 312 before it only through its high 33 bits, and on the one after that only
      through its low 31. */
  lemma TwistedDependsOn(high: Word, low: Word, high2: Word, low2: Word)
    requires high >> 31 == high2 >> 31 && low << 33 == low2 << 33
    ensures Twisted(high, low) == Twisted(high2, low2)
  {
    JoinedDependsOn(high, low, high2, low2);
  }

  /** And on all of these: two different choices of them give different terms. */
  lemma TwistedTellsApart(high: Word, low: Word, high2: Word, low2: Word)
    requires Twisted(high, low) == Twisted(high2, low2)
    ensures high >> 31 == high2 >> 31 && low << 33 == low2 << 33
  {
    TurnedTellsApart(Joined(high, low), Joined(high2, low2));
    JoinedTellsApart(high, low, high2, low2);
  }

  // ---------------------------------------------------------------- the clock

  lemma SmallAsWord(c: Word, m: nat)
    requires m == c as nat
    ensures m as Word == c
  {
  }

  // The last step of the seed from the clock, on numbers.
  lemma ClockSeedIs(t: Clock, s: nat, m: nat, c: Word)
    requires s == Wrap32(Wrap32(Wrap32(t.hour * 3600 + t.min * 60 + t.sec) * 1103515245 + Wrap32(12345 * t.sec)) + t.min)
    requires m == (Wrap32(s * 7) / 65536) % 32768 && m == c as nat
    ensures ClockSeed(t) == c
  {
    SmallAsWord(c, m);
  }

  /** At 12:34:56 the generator is seeded with 32537. */
  lemma SeedAfterNoon()
    ensures ClockSeed(Clock(12, 34, 56)) == 32537
  {
    ClockSeedIs(Clock(12, 34, 56), 4292805322, 32537, 32537);
  }
}
